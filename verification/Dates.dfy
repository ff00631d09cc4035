/** Dates of the proleptic Gregorian calendar and their ordinals, day 1 being the
    first of January of year 1. */
module Dates {

  datatype Date = Date(year: int, month: int, day: int)

  predicate Leap(y: int) {
    y % 4 == 0 && (y % 100 != 0 || y % 400 == 0)
  }

  function DaysIn(y: int, m: int): int {
    if m == 2 then (if Leap(y) then 29 else 28)
    else if m == 4 || m == 6 || m == 9 || m == 11 then 30
    else 31
  }

  function YearLength(y: int): int { if Leap(y) then 366 else 365 }

  predicate Valid(d: Date) {
    d.year >= 1 && 1 <= d.month <= 12 && 1 <= d.day <= DaysIn(d.year, d.month)
  }

  function BeforeYear(y: int): int
    decreases y
  {
    if y <= 1 then 0 else BeforeYear(y - 1) + YearLength(y - 1)
  }

  function BeforeMonth(y: int, m: int): int
    decreases m
  {
    if m <= 1 then 0 else BeforeMonth(y, m - 1) + DaysIn(y, m - 1)
  }

  function Ordinal(d: Date): int {
    BeforeYear(d.year) + BeforeMonth(d.year, d.month) + d.day
  }

  function NextDay(d: Date): Date {
    if d.day < DaysIn(d.year, d.month) then d.(day := d.day + 1)
    else if d.month < 12 then Date(d.year, d.month + 1, 1)
    else Date(d.year + 1, 1, 1)
  }

  /** The closed form that `datetime` computes with. */
  function YearsClosed(p: int): int {
    p * 365 + p / 4 - p / 100 + p / 400
  }

  lemma DivStep(p: int, k: int)
    requires k == 4 || k == 100 || k == 400
    ensures (p + 1) / k == p / k + if (p + 1) % k == 0 then 1 else 0
  {
  }

  lemma ClosedStep(p: int)
    ensures YearsClosed(p + 1) == YearsClosed(p) + YearLength(p + 1)
  {
    DivStep(p, 4);
    DivStep(p, 100);
    DivStep(p, 400);
    LeapCount(p + 1);
  }

  lemma LeapCount(y: int)
    ensures (if Leap(y) then 1 else 0) ==
            (if y % 4 == 0 then 1 else 0) - (if y % 100 == 0 then 1 else 0) + (if y % 400 == 0 then 1 else 0)
  {
    Multiples(y, 400, 100);
    Multiples(y, 100, 4);
  }

  lemma Multiples(y: int, a: int, b: int)
    requires (a == 400 && b == 100) || (a == 100 && b == 4)
    ensures y % a == 0 ==> y % b == 0
  {
    if y % a == 0 {
      var k := y / a;
      assert y == b * ((a / b) * k);
    }
  }

  lemma {:induction false} BeforeYearClosed(y: int)
    requires y >= 1
    ensures BeforeYear(y) == YearsClosed(y - 1)
  {
    if y > 1 {
      BeforeYearClosed(y - 1);
      ClosedStep(y - 2);
    }
  }

  lemma YearsFollow(y: int)
    requires y >= 1
    ensures BeforeYear(y + 1) == BeforeYear(y) + YearLength(y)
  {
  }

  lemma MonthsFill(y: int)
    ensures BeforeMonth(y, 13) == YearLength(y)
  {
    assert BeforeMonth(y, 4) == DaysIn(y, 1) + DaysIn(y, 2) + DaysIn(y, 3);
    assert BeforeMonth(y, 8) == BeforeMonth(y, 4) + 30 + 31 + 30 + 31;
    assert BeforeMonth(y, 12) == BeforeMonth(y, 8) + 31 + 30 + 31 + 30;
  }

  lemma NextDayIsNext(d: Date)
    requires Valid(d)
    ensures Valid(NextDay(d)) && Ordinal(NextDay(d)) == Ordinal(d) + 1
  {
    YearsFollow(d.year);
    MonthsFill(d.year);
  }

  lemma {:induction false} YearsAscend(a: int, b: int)
    requires 1 <= a <= b
    ensures BeforeYear(a) <= BeforeYear(b)
    decreases b - a
  {
    if a < b {
      YearsFollow(a);
      YearsAscend(a + 1, b);
    }
  }

  lemma {:induction false} MonthsAscend(y: int, a: int, b: int)
    requires 1 <= a <= b
    ensures BeforeMonth(y, a) <= BeforeMonth(y, b)
    decreases b - a
  {
    if a < b {
      assert BeforeMonth(y, a + 1) == BeforeMonth(y, a) + DaysIn(y, a);
      MonthsAscend(y, a + 1, b);
    }
  }

  /** A day lies within its year. */
  lemma WithinYear(d: Date)
    requires Valid(d)
    ensures BeforeYear(d.year) < Ordinal(d) <= BeforeYear(d.year + 1)
  {
    YearsFollow(d.year);
    MonthsFill(d.year);
    MonthsAscend(d.year, 1, d.month);
    MonthsAscend(d.year, d.month + 1, 13);
    assert BeforeMonth(d.year, d.month + 1) == BeforeMonth(d.year, d.month) + DaysIn(d.year, d.month);
  }

  /** Later dates have greater ordinals. */
  lemma OrdinalAscends(a: Date, b: Date)
    requires Valid(a) && Valid(b)
    requires a.year < b.year || (a.year == b.year && (a.month < b.month || (a.month == b.month && a.day < b.day)))
    ensures Ordinal(a) < Ordinal(b)
  {
    if a.year < b.year {
      WithinYear(a);
      WithinYear(b);
      YearsAscend(a.year + 1, b.year);
    } else if a.month < b.month {
      MonthsAscend(a.year, a.month + 1, b.month);
      assert BeforeMonth(a.year, a.month + 1) == BeforeMonth(a.year, a.month) + DaysIn(a.year, a.month);
    }
  }

  lemma OrdinalInjective(a: Date, b: Date)
    requires Valid(a) && Valid(b) && Ordinal(a) == Ordinal(b)
    ensures a == b
  {
    if a.year < b.year || (a.year == b.year && (a.month < b.month || (a.month == b.month && a.day < b.day))) {
      OrdinalAscends(a, b);
    } else if a != b {
      OrdinalAscends(b, a);
    }
  }

  /** The n-th day, counted from the first. */
  function DateOf(n: int): (d: Date)
    requires n >= 1
    ensures Valid(d) && Ordinal(d) == n
  {
    if n == 1 then Date(1, 1, 1)
    else
      NextDayIsNext(DateOf(n - 1));
      NextDay(DateOf(n - 1))
  }

  /** Counting gives back every date. */
  lemma DateOfOrdinal(d: Date)
    requires Valid(d)
    ensures Ordinal(d) >= 1 && DateOf(Ordinal(d)) == d
  {
    WithinYear(d);
    YearsAscend(1, d.year);
    OrdinalInjective(DateOf(Ordinal(d)), d);
  }

  // ----- known values

  /** The days before each month, as they are known. */
  lemma MonthTable(y: int)
    ensures var leap := if Leap(y) then 1 else 0;
            && BeforeMonth(y, 1) == 0 && BeforeMonth(y, 2) == 31 && BeforeMonth(y, 3) == 59 + leap
            && BeforeMonth(y, 4) == 90 + leap && BeforeMonth(y, 5) == 120 + leap && BeforeMonth(y, 6) == 151 + leap
            && BeforeMonth(y, 7) == 181 + leap && BeforeMonth(y, 8) == 212 + leap && BeforeMonth(y, 9) == 243 + leap
            && BeforeMonth(y, 10) == 273 + leap && BeforeMonth(y, 11) == 304 + leap && BeforeMonth(y, 12) == 334 + leap
  {
    assert BeforeMonth(y, 3) == 31 + DaysIn(y, 2);
    assert BeforeMonth(y, 5) == BeforeMonth(y, 3) + 61;
    assert BeforeMonth(y, 7) == BeforeMonth(y, 5) + 61;
    assert BeforeMonth(y, 9) == BeforeMonth(y, 7) + 62;
    assert BeforeMonth(y, 11) == BeforeMonth(y, 9) + 61;
  }

  /** Day 719162 is the last before 1970, the year of the Unix epoch. */
  lemma Epoch(y: int)
    requires y == 1970
    ensures BeforeYear(y) == 719_162
  {
    BeforeYearClosed(y);
  }
}
