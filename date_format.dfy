/**
 * Text forms of dates used by the bot: `isoformat()` / `strftime("%Y-%m-%d")`,
 * the permalink's `strftime("%y%m%d")`, the card's `strftime("%d %b %Y")`
 * (with the English month abbreviations of the C locale), and the two parsers
 * that read dates back: `date.fromisoformat` and `datetime.strptime(s, "%Y-%m-%d")`.
 */
module DateFormat {
  import opened Wrappers
  import opened Dates
  import opened Exceptions

  predicate IsDigit(c: char) {
    '0' <= c <= '9'
  }

  predicate AllDigits(s: string) {
    forall i :: 0 <= i < |s| ==> IsDigit(s[i])
  }

  function DigitValue(c: char): (n: int)
    requires IsDigit(c)
    ensures 0 <= n <= 9
  {
    c as int - '0' as int
  }

  function DigitChar(n: int): (c: char)
    requires 0 <= n <= 9
    ensures IsDigit(c) && DigitValue(c) == n
  {
    ('0' as int + n) as char
  }

  /** The value of a fixed-width run of decimal digits. */
  function DigitsValue(s: string): (n: int)
    requires AllDigits(s)
    ensures n >= 0
  {
    if s == [] then 0 else 10 * DigitsValue(s[..|s| - 1]) + DigitValue(s[|s| - 1])
  }

  /** `%02d`: two digits, zero padded. */
  function Pad2(n: int): (s: string)
    requires 0 <= n <= 99
    ensures |s| == 2 && AllDigits(s)
  {
    [DigitChar(n / 10), DigitChar(n % 10)]
  }

  /** `%04d`: four digits, zero padded. */
  function Pad4(n: int): (s: string)
    requires 0 <= n <= 9999
    ensures |s| == 4 && AllDigits(s)
  {
    [DigitChar(n / 1000), DigitChar(n / 100 % 10), DigitChar(n / 10 % 10), DigitChar(n % 10)]
  }

  lemma DigitsValue2(s: string)
    requires |s| == 2 && AllDigits(s)
    ensures DigitsValue(s) == 10 * DigitValue(s[0]) + DigitValue(s[1])
  {
    var a := s[..1];
    assert a[..|a| - 1] == [];
    assert DigitsValue(a) == DigitValue(s[0]);
    assert s[..|s| - 1] == a;
  }

  lemma DigitsValue4(s: string)
    requires |s| == 4 && AllDigits(s)
    ensures DigitsValue(s) == 1000 * DigitValue(s[0]) + 100 * DigitValue(s[1]) + 10 * DigitValue(s[2]) + DigitValue(s[3])
  {
    var a, b, c := s[..1], s[..2], s[..3];
    assert a[..|a| - 1] == [];
    assert DigitsValue(a) == DigitValue(s[0]);
    assert b[..|b| - 1] == a;
    assert DigitsValue(b) == 10 * DigitValue(s[0]) + DigitValue(s[1]);
    assert c[..|c| - 1] == b;
    assert DigitsValue(c) == 100 * DigitValue(s[0]) + 10 * DigitValue(s[1]) + DigitValue(s[2]);
    assert s[..|s| - 1] == c;
  }

  lemma Pad2Value(n: int)
    requires 0 <= n <= 99
    ensures DigitsValue(Pad2(n)) == n
  {
    DigitsValue2(Pad2(n));
  }

  lemma Pad4Value(n: int)
    requires 0 <= n <= 9999
    ensures DigitsValue(Pad4(n)) == n
  {
    DigitsValue4(Pad4(n));
    FourDigitsJoin(n);
  }

  lemma FourDigitsJoin(n: int)
    requires 0 <= n <= 9999
    ensures 1000 * (n / 1000) + 100 * (n / 100 % 10) + 10 * (n / 10 % 10) + n % 10 == n
  {
    var m := n / 10;
    assert n == 10 * m + n % 10;
    assert n / 100 == m / 10;
    assert n / 1000 == m / 100;
    assert m == 10 * (m / 10) + m % 10;
    assert m / 10 == 10 * (m / 100) + m / 10 % 10;
  }

  lemma DigitCharValue(c: char)
    requires IsDigit(c)
    ensures DigitChar(DigitValue(c)) == c
  {
  }

  /** Reading two digits and writing them back gives the same two characters. */
  lemma Value2Pad(s: string)
    requires |s| == 2 && AllDigits(s)
    ensures DigitsValue(s) <= 99 && Pad2(DigitsValue(s)) == s
  {
    DigitsValue2(s);
    var v := DigitsValue(s);
    assert v / 10 == DigitValue(s[0]) && v % 10 == DigitValue(s[1]);
    DigitCharValue(s[0]);
    DigitCharValue(s[1]);
  }

  lemma FourDigitsSplit(a: int, b: int, c: int, d: int)
    requires 0 <= a <= 9 && 0 <= b <= 9 && 0 <= c <= 9 && 0 <= d <= 9
    ensures var v := 1000 * a + 100 * b + 10 * c + d;
      v / 1000 == a && v / 100 % 10 == b && v / 10 % 10 == c && v % 10 == d
  {
    var v := 1000 * a + 100 * b + 10 * c + d;
    assert v / 10 == 100 * a + 10 * b + c;
    assert v / 100 == 10 * a + b;
    assert v / 1000 == a;
  }

  /** Reading four digits and writing them back gives the same four characters. */
  lemma Value4Pad(s: string)
    requires |s| == 4 && AllDigits(s)
    ensures DigitsValue(s) <= 9999 && Pad4(DigitsValue(s)) == s
  {
    DigitsValue4(s);
    FourDigitsSplit(DigitValue(s[0]), DigitValue(s[1]), DigitValue(s[2]), DigitValue(s[3]));
    DigitCharValue(s[0]);
    DigitCharValue(s[1]);
    DigitCharValue(s[2]);
    DigitCharValue(s[3]);
  }

  // ---------------------------------------------------------------------------
  // Formatting

  /** `d.isoformat()`, which is also `d.strftime("%Y-%m-%d")` with a four-digit year. */
  function FormatYmd(d: Date): (s: string)
    ensures |s| == 10 && s[4] == '-' && s[7] == '-'
    ensures AllDigits(s[..4]) && AllDigits(s[5..7]) && AllDigits(s[8..])
  {
    Pad4(d.year) + "-" + Pad2(d.month) + "-" + Pad2(d.day)
  }

  /** `d.strftime("%y%m%d")`: two-digit year, month and day. */
  function FormatYymmdd(d: Date): (s: string)
    ensures |s| == 6 && AllDigits(s)
  {
    Pad2(d.year % 100) + Pad2(d.month) + Pad2(d.day)
  }

  const MonthAbbreviations: seq<string> :=
    ["Jan", "Feb", "Mar", "Apr", "May", "Jun", "Jul", "Aug", "Sep", "Oct", "Nov", "Dec"]

  /** `d.strftime("%d %b %Y")` in the C locale, e.g. "16 Jun 1995". */
  function FormatDayMonYear(d: Date): (s: string)
    ensures |s| == 11 && s[2] == ' ' && s[6] == ' '
  {
    Pad2(d.day) + " " + MonthAbbreviations[d.month - 1] + " " + Pad4(d.year)
  }

  /** The day line names the date: two dates with the same "%d %b %Y" text are the same date. */
  lemma FormatDayMonYearInjective(a: Date, b: Date)
    requires FormatDayMonYear(a) == FormatDayMonYear(b)
    ensures a == b
  {
    var s, t := FormatDayMonYear(a), FormatDayMonYear(b);
    assert s[..2] == Pad2(a.day) && t[..2] == Pad2(b.day);
    assert s[3..6] == MonthAbbreviations[a.month - 1] && t[3..6] == MonthAbbreviations[b.month - 1];
    assert s[7..] == Pad4(a.year) && t[7..] == Pad4(b.year);
    Pad2Value(a.day);
    Pad2Value(b.day);
    Pad4Value(a.year);
    Pad4Value(b.year);
  }

  /** The permalink's six digits determine the month, the day and the year modulo 100, and nothing more. */
  lemma FormatYymmddDigits(a: Date, b: Date)
    ensures FormatYymmdd(a) == FormatYymmdd(b) <==>
      a.year % 100 == b.year % 100 && a.month == b.month && a.day == b.day
  {
    var s, t := FormatYymmdd(a), FormatYymmdd(b);
    if s == t {
      assert s[..2] == Pad2(a.year % 100) && t[..2] == Pad2(b.year % 100);
      assert s[2..4] == Pad2(a.month) && t[2..4] == Pad2(b.month);
      assert s[4..] == Pad2(a.day) && t[4..] == Pad2(b.day);
      Pad2Value(a.year % 100);
      Pad2Value(b.year % 100);
      Pad2Value(a.month);
      Pad2Value(b.month);
      Pad2Value(a.day);
      Pad2Value(b.day);
    }
  }

  // ---------------------------------------------------------------------------
  // Parsing

  /**
   * `date.fromisoformat(s)` as CPython 3.10's C implementation reads it: exactly
   * "YYYY-MM-DD" in ASCII digits, then `date(year, month, day)`. None is ValueError.
   */
  function ParseIso(s: string): Option<Date> {
    if |s| == 10 && s[4] == '-' && s[7] == '-' && AllDigits(s[..4]) && AllDigits(s[5..7]) && AllDigits(s[8..])
    then FromYmd(DigitsValue(s[..4]), DigitsValue(s[5..7]), DigitsValue(s[8..]))
    else None
  }

  /** `%m` in strptime: `1[0-2]|0[1-9]|[1-9]`. */
  predicate MonthToken(t: string) {
    (|t| == 1 && '1' <= t[0] <= '9')
    || (|t| == 2 && ((t[0] == '1' && '0' <= t[1] <= '2') || (t[0] == '0' && '1' <= t[1] <= '9')))
  }

  /**
   * `%d` in strptime: `3[01]|[12]\d|0[1-9]|[1-9]| [1-9]`. Because strptime refuses
   * unconverted trailing text, the whole remainder of the string must be one of these.
   */
  predicate DayToken(t: string) {
    (|t| == 1 && '1' <= t[0] <= '9')
    || (|t| == 2 && ((t[0] == '3' && '0' <= t[1] <= '1')
                     || (('1' <= t[0] <= '2') && IsDigit(t[1]))
                     || (t[0] == '0' && '1' <= t[1] <= '9')
                     || (t[0] == ' ' && '1' <= t[1] <= '9')))
  }

  /** The number a month or day token stands for (a leading space counts as nothing). */
  function TokenValue(t: string): int
    requires |t| == 1 || |t| == 2
    requires forall i :: 0 <= i < |t| ==> IsDigit(t[i]) || (i == 0 && |t| == 2 && t[0] == ' ')
  {
    if |t| == 1 then DigitValue(t[0])
    else if t[0] == ' ' then DigitValue(t[1])
    else 10 * DigitValue(t[0]) + DigitValue(t[1])
  }

  /**
   * `datetime.strptime(s, "%Y-%m-%d")` (date part): four digits, '-', a month token,
   * '-', a day token and nothing after it, then `datetime(year, month, day)`.
   * The month group backtracks to find the second '-'. None is ValueError.
   */
  function ParseStrptime(s: string): Option<Date> {
    if |s| < 5 || !AllDigits(s[..4]) || s[4] != '-' then None
    else
      var rest := s[5..];
      if |rest| >= 2 && rest[1] == '-' && MonthToken(rest[..1]) && DayToken(rest[2..]) then
        FromYmd(DigitsValue(s[..4]), TokenValue(rest[..1]), TokenValue(rest[2..]))
      else if |rest| >= 3 && rest[2] == '-' && MonthToken(rest[..2]) && DayToken(rest[3..]) then
        FromYmd(DigitsValue(s[..4]), TokenValue(rest[..2]), TokenValue(rest[3..]))
      else None
  }

  lemma FormatYmdParts(d: Date)
    ensures FormatYmd(d)[..4] == Pad4(d.year)
    ensures FormatYmd(d)[5..7] == Pad2(d.month)
    ensures FormatYmd(d)[8..] == Pad2(d.day)
  {
  }

  /** `date.fromisoformat(d.isoformat()) == d`. */
  lemma ParseIsoFormatYmd(d: Date)
    ensures ParseIso(FormatYmd(d)) == Some(d)
  {
    FormatYmdParts(d);
    Pad4Value(d.year);
    Pad2Value(d.month);
    Pad2Value(d.day);
  }

  /** fromisoformat accepts only the canonical text: whatever it parses, isoformat writes back verbatim. */
  lemma ParseIsoCanonical(s: string)
    requires ParseIso(s).Some?
    ensures FormatYmd(ParseIso(s).value) == s
  {
    var d := ParseIso(s).value;
    Value4Pad(s[..4]);
    Value2Pad(s[5..7]);
    Value2Pad(s[8..]);
    FormatYmdParts(d);
    var f := FormatYmd(d);
    assert f[..4] == s[..4] && f[5..7] == s[5..7] && f[8..] == s[8..];
    assert forall i | 0 <= i < 10 :: f[i] == s[i] by {
      forall i | 0 <= i < 10 ensures f[i] == s[i] {
        if i < 4 {
          assert f[i] == f[..4][i];
        } else if 5 <= i < 7 {
          assert f[i] == f[5..7][i - 5] && s[i] == s[5..7][i - 5];
        } else if 8 <= i {
          assert f[i] == f[8..][i - 8] && s[i] == s[8..][i - 8];
        }
      }
    }
  }

  lemma TwoDigitTokenValue(t: string)
    requires |t| == 2 && AllDigits(t)
    ensures TokenValue(t) == DigitsValue(t)
  {
    DigitsValue2(t);
  }

  /** strptime reads back what `strftime("%Y-%m-%d")` wrote: the date a request was made for. */
  lemma ParseStrptimeFormatYmd(d: Date)
    ensures ParseStrptime(FormatYmd(d)) == Some(d)
  {
    ParseIsoFormatYmd(d);
    ParseStrptimeAcceptsIso(FormatYmd(d));
  }

  /** strptime with "%Y-%m-%d" accepts every string fromisoformat accepts, with the same date. */
  lemma ParseStrptimeAcceptsIso(s: string)
    requires ParseIso(s).Some?
    ensures ParseStrptime(s) == ParseIso(s)
  {
    var d := ParseIso(s).value;
    var rest := s[5..];
    assert rest[2] == '-';
    assert rest[..2] == s[5..7] && rest[3..] == s[8..];
    assert !(rest[1] == '-') by {
      assert rest[1] == s[5..7][1];
    }
    TwoDigitTokenValue(s[5..7]);
    TwoDigitTokenValue(s[8..]);
    assert 1 <= d.month <= 12 && d.month == DigitsValue(s[5..7]);
    assert MonthToken(rest[..2]) by {
      var t := s[5..7];
      assert DigitsValue(t) == 10 * DigitValue(t[0]) + DigitValue(t[1]);
    }
    assert DayToken(rest[3..]) by {
      var t := s[8..];
      assert DigitsValue(t) == 10 * DigitValue(t[0]) + DigitValue(t[1]);
      assert 1 <= d.day <= 31 && d.day == DigitsValue(t);
    }
  }

  /** strptime is more lenient than fromisoformat: it takes a one-digit month and day. */
  lemma ParseStrptimeLenient()
    ensures ParseStrptime("1995-6-16") == Some(FirstApod)
    ensures ParseIso("1995-6-16") == None
  {
    var s := "1995-6-16";
    assert s[..4] == "1995" && s[5..][..1] == "6" && s[5..][2..] == "16";
    assert DigitsValue("1995") == 1995 by {
      assert "1995"[..3] == "199" && "199"[..2] == "19" && "19"[..1] == "1" && "1"[..0] == [];
    }
  }

  lemma FormatExamples()
    ensures FormatYmd(FirstApod) == "1995-06-16"
    ensures FormatYymmdd(FirstApod) == "950616"
    ensures FormatDayMonYear(FirstApod) == "16 Jun 1995"
  {
  }

  /** Decimal text of a natural number, as `str(n)` writes it. */
  function Decimal(n: nat): (s: string)
    ensures |s| >= 1 && AllDigits(s)
  {
    if n < 10 then [DigitChar(n)] else Decimal(n / 10) + [DigitChar(n % 10)]
  }

  /** `str(n)` for any integer. */
  function IntText(n: int): string {
    if n < 0 then "-" + Decimal(-n) else Decimal(n)
  }

  /** The ValueError of `date(year, month, day)` for numbers that name no date. */
  function DateConstructorError(year: int, month: int, day: int): (e: Raised)
    requires FromYmd(year, month, day).None?
    ensures e.cls == ValueError
  {
    if !(MinYear <= year <= MaxYear) then Raised(ValueError, "year " + IntText(year) + " is out of range")
    else if !(1 <= month <= 12) then Raised(ValueError, "month must be in 1..12")
    else Raised(ValueError, "day is out of range for month")
  }
}
