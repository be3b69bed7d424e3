/**
 * Proleptic Gregorian calendar dates as Python's `datetime.date` has them:
 * years 1 to 9999, month lengths with leap years, chronological comparison,
 * the day ordinal CPython uses for date arithmetic, and stepping one day
 * forward or backward (which raises OverflowError at either end of the range).
 */
module Dates {
  import opened Wrappers

  const MinYear: int := 1
  const MaxYear: int := 9999

  datatype CivilDate = CivilDate(year: int, month: int, day: int)
  {
    /** What `date(year, month, day)` accepts without raising ValueError. */
    predicate Valid() {
      MinYear <= year <= MaxYear && 1 <= month <= 12 && 1 <= day <= DaysInMonth(year, month)
    }
  }

  type Date = d: CivilDate | d.Valid() witness CivilDate(1995, 6, 16)

  /** The first Astronomy Picture of the Day. */
  const FirstApod: Date := CivilDate(1995, 6, 16)
  const FirstDate: Date := CivilDate(MinYear, 1, 1)
  const LastDate: Date := CivilDate(MaxYear, 12, 31)

  predicate IsLeapYear(y: int) {
    y % 4 == 0 && (y % 100 != 0 || y % 400 == 0)
  }

  function DaysInMonth(y: int, m: int): (n: int)
    requires 1 <= m <= 12
    ensures 28 <= n <= 31
    ensures n == 29 <==> m == 2 && IsLeapYear(y)
  {
    if m == 2 then (if IsLeapYear(y) then 29 else 28)
    else if m == 4 || m == 6 || m == 9 || m == 11 then 30
    else 31
  }

  function DaysInYear(y: int): int {
    if IsLeapYear(y) then 366 else 365
  }

  /** `date(year, month, day)`: None where Python raises ValueError. */
  function FromYmd(year: int, month: int, day: int): Option<Date> {
    var d := CivilDate(year, month, day);
    if d.Valid() then Some(d) else None
  }

  /** Python's `a < b` on dates: (year, month, day) compared lexicographically. */
  predicate Before(a: CivilDate, b: CivilDate) {
    a.year < b.year || (a.year == b.year && (a.month < b.month || (a.month == b.month && a.day < b.day)))
  }

  /** Python's `a <= b` on dates. */
  predicate AtOrBefore(a: CivilDate, b: CivilDate) {
    a == b || Before(a, b)
  }

  /** Whether d lies in the feed's domain [1995-06-16, today], both ends included. */
  predicate InFeedRange(d: CivilDate, today: CivilDate) {
    AtOrBefore(FirstApod, d) && AtOrBefore(d, today)
  }

  // ---------------------------------------------------------------------------
  // Day ordinals, as CPython's date.toordinal computes them

  /** CPython's `_days_before_year`. */
  function DaysBeforeYear(y: int): int
    requires y >= 1
  {
    var p := y - 1;
    p * 365 + p / 4 - p / 100 + p / 400
  }

  /** CPython's `_days_before_month`: a fixed table plus one day after February in leap years. */
  function DaysBeforeMonth(y: int, m: int): int
    requires 1 <= m <= 12
  {
    [0, 31, 59, 90, 120, 151, 181, 212, 243, 273, 304, 334][m - 1]
      + (if m > 2 && IsLeapYear(y) then 1 else 0)
  }

  /** `date.toordinal()`: 0001-01-01 is day 1. */
  function Ordinal(d: Date): int {
    DaysBeforeYear(d.year) + DaysBeforeMonth(d.year, d.month) + d.day
  }

  lemma DivStep(x: int)
    requires x >= 0
    ensures (x + 1) / 4 == x / 4 + (if (x + 1) % 4 == 0 then 1 else 0)
    ensures (x + 1) / 100 == x / 100 + (if (x + 1) % 100 == 0 then 1 else 0)
    ensures (x + 1) / 400 == x / 400 + (if (x + 1) % 400 == 0 then 1 else 0)
  {
  }

  lemma DaysBeforeYearStep(y: int)
    requires y >= 1
    ensures DaysBeforeYear(y + 1) == DaysBeforeYear(y) + DaysInYear(y)
  {
    var p := y - 1;
    DivStep(p);
    var four, hundred, fourHundred := y / 4 - p / 4, y / 100 - p / 100, y / 400 - p / 400;
    assert DaysBeforeYear(y + 1) - DaysBeforeYear(y) == 365 + four - hundred + fourHundred;
    MultiplesNest(y);
  }

  /** A multiple of 400 is a multiple of 100, and a multiple of 100 is a multiple of 4. */
  lemma MultiplesNest(y: int)
    ensures y % 400 == 0 ==> y % 100 == 0
    ensures y % 100 == 0 ==> y % 4 == 0
  {
    if y % 400 == 0 {
      var q := y / 400;
      assert y == 100 * (4 * q);
    }
    if y % 100 == 0 {
      var q := y / 100;
      assert y == 4 * (25 * q);
    }
  }

  lemma DaysBeforeMonthStep(y: int, m: int)
    requires 1 <= m < 12
    ensures DaysBeforeMonth(y, m + 1) == DaysBeforeMonth(y, m) + DaysInMonth(y, m)
  {
  }

  lemma DaysBeforeYearEnd(y: int)
    ensures DaysBeforeMonth(y, 12) + DaysInMonth(y, 12) == DaysInYear(y)
  {
  }

  lemma {:induction false} DaysBeforeYearMonotone(a: int, b: int)
    requires 1 <= a < b
    ensures DaysBeforeYear(a) + DaysInYear(a) <= DaysBeforeYear(b)
    decreases b - a
  {
    DaysBeforeYearStep(a);
    if a + 1 < b {
      DaysBeforeYearMonotone(a + 1, b);
    }
  }

  lemma {:induction false} DaysBeforeMonthMonotone(y: int, a: int, b: int)
    requires 1 <= a < b <= 12
    ensures DaysBeforeMonth(y, a) + DaysInMonth(y, a) <= DaysBeforeMonth(y, b)
    decreases b - a
  {
    DaysBeforeMonthStep(y, a);
    if a + 1 < b {
      DaysBeforeMonthMonotone(y, a + 1, b);
    }
  }

  /** Every day of a year has an ordinal inside that year's span. */
  lemma OrdinalWithinYear(d: Date)
    ensures DaysBeforeYear(d.year) < Ordinal(d) <= DaysBeforeYear(d.year) + DaysInYear(d.year)
  {
    if d.month < 12 {
      DaysBeforeMonthMonotone(d.year, d.month, 12);
    }
    DaysBeforeYearEnd(d.year);
  }

  lemma OrdinalBefore(a: Date, b: Date)
    requires Before(a, b)
    ensures Ordinal(a) < Ordinal(b)
  {
    if a.year < b.year {
      OrdinalWithinYear(a);
      OrdinalWithinYear(b);
      DaysBeforeYearMonotone(a.year, b.year);
    } else if a.month < b.month {
      DaysBeforeMonthMonotone(a.year, a.month, b.month);
    }
  }

  /** Comparing dates chronologically is comparing their ordinals. */
  lemma OrdinalOrder(a: Date, b: Date)
    ensures Before(a, b) <==> Ordinal(a) < Ordinal(b)
    ensures a == b <==> Ordinal(a) == Ordinal(b)
  {
    if Before(a, b) {
      OrdinalBefore(a, b);
    } else if Before(b, a) {
      OrdinalBefore(b, a);
    } else {
      assert a == b;
    }
  }

  // ---------------------------------------------------------------------------
  // Stepping by one day

  /** `d + timedelta(days=1)`; None where Python raises OverflowError. */
  function Successor(d: Date): Option<Date> {
    if d.day < DaysInMonth(d.year, d.month) then Some(CivilDate(d.year, d.month, d.day + 1))
    else if d.month < 12 then Some(CivilDate(d.year, d.month + 1, 1))
    else if d.year < MaxYear then Some(CivilDate(d.year + 1, 1, 1))
    else None
  }

  /** `d - timedelta(days=1)`; None where Python raises OverflowError. */
  function Predecessor(d: Date): Option<Date> {
    if d.day > 1 then Some(CivilDate(d.year, d.month, d.day - 1))
    else if d.month > 1 then Some(CivilDate(d.year, d.month - 1, DaysInMonth(d.year, d.month - 1)))
    else if d.year > MinYear then Some(CivilDate(d.year - 1, 12, 31))
    else None
  }

  /** Stepping forward overflows only on 9999-12-31, and otherwise adds exactly one to the ordinal. */
  lemma SuccessorOrdinal(d: Date)
    ensures Successor(d).None? <==> d == LastDate
    ensures Successor(d).Some? ==> Ordinal(Successor(d).value) == Ordinal(d) + 1
  {
    if d.day == DaysInMonth(d.year, d.month) && d.month < 12 {
      DaysBeforeMonthStep(d.year, d.month);
    } else if d.day == DaysInMonth(d.year, d.month) && d.year < MaxYear {
      DaysBeforeYearStep(d.year);
      DaysBeforeYearEnd(d.year);
    }
  }

  /** Stepping backward overflows only on 0001-01-01, and otherwise subtracts one from the ordinal. */
  lemma PredecessorOrdinal(d: Date)
    ensures Predecessor(d).None? <==> d == FirstDate
    ensures Predecessor(d).Some? ==> Ordinal(Predecessor(d).value) == Ordinal(d) - 1
  {
    if d.day == 1 && d.month > 1 {
      DaysBeforeMonthStep(d.year, d.month - 1);
    } else if d.day == 1 && d.year > MinYear {
      DaysBeforeYearStep(d.year - 1);
      DaysBeforeYearEnd(d.year - 1);
    }
  }

  /** The successor is the next calendar day: later than d, with no date strictly in between. */
  lemma SuccessorIsNextDay(d: Date, e: Date)
    requires Successor(d).Some?
    ensures Before(d, Successor(d).value)
    ensures !(Before(d, e) && Before(e, Successor(d).value))
  {
    var n := Successor(d).value;
    SuccessorOrdinal(d);
    OrdinalOrder(d, n);
    OrdinalOrder(d, e);
    OrdinalOrder(e, n);
  }

  /** The predecessor is the previous calendar day: earlier than d, with no date strictly in between. */
  lemma PredecessorIsPreviousDay(d: Date, e: Date)
    requires Predecessor(d).Some?
    ensures Before(Predecessor(d).value, d)
    ensures !(Before(Predecessor(d).value, e) && Before(e, d))
  {
    var p := Predecessor(d).value;
    PredecessorOrdinal(d);
    OrdinalOrder(p, d);
    OrdinalOrder(p, e);
    OrdinalOrder(e, d);
  }

  /** Stepping forward then backward, or backward then forward, returns to the start. */
  lemma StepRoundTrip(d: Date)
    ensures Successor(d).Some? ==> Predecessor(Successor(d).value) == Some(d)
    ensures Predecessor(d).Some? ==> Successor(Predecessor(d).value) == Some(d)
  {
    SuccessorOrdinal(d);
    PredecessorOrdinal(d);
    if Successor(d).Some? {
      var n := Successor(d).value;
      PredecessorOrdinal(n);
      var p := Predecessor(n).value;
      OrdinalOrder(p, d);
    }
    if Predecessor(d).Some? {
      var p := Predecessor(d).value;
      SuccessorOrdinal(p);
      var n := Successor(p).value;
      OrdinalOrder(n, d);
    }
  }

  /** The feed's domain read through ordinals: 1995-06-16 <= d <= today as day numbers. */
  lemma InFeedRangeByOrdinal(d: Date, today: Date)
    ensures InFeedRange(d, today) <==> Ordinal(FirstApod) <= Ordinal(d) <= Ordinal(today)
  {
    OrdinalOrder(FirstApod, d);
    OrdinalOrder(d, today);
  }
}
