/** Python's `str.split(sep)` and `sep.join(parts)` for a one-character separator. */
module PyStr {

  predicate IsPrefix(p: string, s: string) {
    |p| <= |s| && s[..|p|] == p
  }

  predicate IsSuffix(p: string, s: string) {
    |p| <= |s| && s[|s| - |p|..] == p
  }

  /** `sep.join(parts)`. */
  function Join(parts: seq<string>, sep: char): string
    requires |parts| >= 1
  {
    if |parts| == 1 then parts[0] else parts[0] + [sep] + Join(parts[1..], sep)
  }

  lemma JoinExtendFirst(c: char, parts: seq<string>, sep: char)
    requires |parts| >= 1
    ensures Join([[c] + parts[0]] + parts[1..], sep) == [c] + Join(parts, sep)
  {
    var q := [[c] + parts[0]] + parts[1..];
    if |parts| > 1 {
      assert q[1..] == parts[1..];
    }
  }

  /**
   * `s.split(sep)`: the pieces between occurrences of sep, from left to right.
   * There is always at least one piece, and no piece contains sep.
   */
  function Split(s: string, sep: char): (parts: seq<string>)
    ensures |parts| >= 1
    ensures forall i :: 0 <= i < |parts| ==> sep !in parts[i]
    decreases |s|
  {
    if s == [] then [""]
    else
      var tail := Split(s[1..], sep);
      if s[0] == sep then [""] + tail
      else [[s[0]] + tail[0]] + tail[1..]
  }

  /** Joining the pieces with sep gives the string back. */
  lemma {:induction false} SplitJoin(s: string, sep: char)
    ensures Join(Split(s, sep), sep) == s
    decreases |s|
  {
    if s != [] {
      var tail := Split(s[1..], sep);
      SplitJoin(s[1..], sep);
      if s[0] == sep {
        assert ([""] + tail)[1..] == tail;
      } else {
        JoinExtendFirst(s[0], tail, sep);
      }
      assert s == [s[0]] + s[1..];
    }
  }

  /** The first piece is a prefix of s that is all of s or stops at a sep. */
  lemma {:induction false} SplitFirst(s: string, sep: char)
    ensures IsPrefix(Split(s, sep)[0], s)
    ensures Split(s, sep)[0] == s || s[|Split(s, sep)[0]|] == sep
    decreases |s|
  {
    if s != [] && s[0] != sep {
      SplitFirst(s[1..], sep);
      assert s == [s[0]] + s[1..];
    }
  }

  /** The last piece is a suffix of s that is all of s or starts right after a sep. */
  lemma {:induction false} SplitLast(s: string, sep: char)
    ensures var parts := Split(s, sep);
      IsSuffix(parts[|parts| - 1], s)
      && (parts[|parts| - 1] == s || s[|s| - |parts[|parts| - 1]| - 1] == sep)
    decreases |s|
  {
    if s != [] {
      var tail := Split(s[1..], sep);
      SplitLast(s[1..], sep);
      if s[0] == sep {
        assert Split(s, sep) == [""] + tail;
      } else if |tail| > 1 {
        SplitHasSep(s[1..], sep);
        assert Split(s, sep)[|Split(s, sep)| - 1] == tail[|tail| - 1];
      } else {
        SplitJoin(s[1..], sep);
        assert tail == [s[1..]];
        assert s == [s[0]] + s[1..];
        assert Split(s, sep) == [s];
      }
    }
  }

  /** More than one piece means the string holds a sep. */
  lemma {:induction false} SplitHasSep(s: string, sep: char)
    requires |Split(s, sep)| > 1
    ensures sep in s
    decreases |s|
  {
    if s[0] != sep {
      SplitHasSep(s[1..], sep);
    }
  }

  /** The piece after the last sep: `s.split(sep)[-1]`. */
  function LastPiece(s: string, sep: char): string {
    var parts := Split(s, sep);
    parts[|parts| - 1]
  }

  /** The piece before the first sep: `s.split(sep)[0]`. */
  function FirstPiece(s: string, sep: char): string {
    Split(s, sep)[0]
  }

  /** The last piece is the longest sep-free suffix of s. */
  lemma LastPieceIsLongestSuffix(s: string, sep: char)
    ensures IsSuffix(LastPiece(s, sep), s) && sep !in LastPiece(s, sep)
    ensures LastPiece(s, sep) == s || s[|s| - |LastPiece(s, sep)| - 1] == sep
  {
    SplitLast(s, sep);
  }

  /** The first piece is the longest sep-free prefix of s. */
  lemma FirstPieceIsLongestPrefix(s: string, sep: char)
    ensures IsPrefix(FirstPiece(s, sep), s) && sep !in FirstPiece(s, sep)
    ensures FirstPiece(s, sep) == s || s[|FirstPiece(s, sep)|] == sep
  {
    SplitFirst(s, sep);
  }
}
