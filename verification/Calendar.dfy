/**
 The proleptic Gregorian calendar. A date is a month (counted from January of year 0) and a day in
 it; its ordinal counts days, so that date order is ordinal order and day 1 is Monday 1 January 1.
 */
module Calendar {

  datatype Day = Day(month: int, day: int)

  predicate Leap(year: int) { year % 4 == 0 && (year % 100 != 0 || year % 400 == 0) }

  function MonthLength(month: int): (n: int)
    ensures 28 <= n <= 31
  {
    var m := month % 12;
    if m == 1 then (if Leap(month / 12) then 29 else 28)
    else if m == 3 || m == 5 || m == 8 || m == 10 then 30
    else 31
  }

  predicate Valid(d: Day) { 1 <= d.day <= MonthLength(d.month) }

  function DaysBeforeYear(year: int): int {
    var y := year - 1;
    365 * y + y / 4 - y / 100 + y / 400
  }

  function DaysBeforeMonth(m: int, leap: bool): int
    requires 0 <= m < 12
  {
    [0, 31, 59, 90, 120, 151, 181, 212, 243, 273, 304, 334][m] + if leap && m >= 2 then 1 else 0
  }

  // the ordinal of the first of the month
  function MonthStart(month: int): int {
    DaysBeforeYear(month / 12) + DaysBeforeMonth(month % 12, Leap(month / 12)) + 1
  }

  function Ordinal(d: Day): int { MonthStart(d.month) + d.day - 1 }

  lemma FloorStep(y: int, k: int)
    requires k == 4 || k == 100 || k == 400
    ensures y / k - (y - 1) / k == if y % k == 0 then 1 else 0
  {
  }

  lemma FourDivides(q: int)
    ensures 4 * q % 4 == 0
  {
  }

  lemma HundredDivides(q: int)
    ensures 100 * q % 100 == 0
  {
  }

  lemma CenturyByFour(y: int)
    requires y % 100 == 0
    ensures y % 4 == 0
  {
    FourDivides(25 * (y / 100));
    assert y == 4 * (25 * (y / 100));
  }

  lemma FourCenturiesByHundred(y: int)
    requires y % 400 == 0
    ensures y % 100 == 0
  {
    HundredDivides(4 * (y / 400));
    assert y == 100 * (4 * (y / 400));
  }

  lemma LeapDivisors(y: int)
    ensures y % 400 == 0 ==> y % 100 == 0
    ensures y % 100 == 0 ==> y % 4 == 0
  {
    if y % 100 == 0 { CenturyByFour(y); }
    if y % 400 == 0 { FourCenturiesByHundred(y); }
  }

  lemma YearLength(year: int)
    ensures DaysBeforeYear(year + 1) == DaysBeforeYear(year) + (if Leap(year) then 366 else 365)
  {
    FloorStep(year, 4);
    FloorStep(year, 100);
    FloorStep(year, 400);
    LeapDivisors(year);
  }

  /** Months follow each other without a gap. */
  lemma NextMonthStart(month: int)
    ensures MonthStart(month + 1) == MonthStart(month) + MonthLength(month)
  {
    if month % 12 == 11 {
      assert (month + 1) / 12 == month / 12 + 1 && (month + 1) % 12 == 0;
      YearLength(month / 12);
    } else {
      assert (month + 1) / 12 == month / 12 && (month + 1) % 12 == month % 12 + 1;
    }
  }

  lemma {:induction false} MonthStartsGrow(a: int, b: int)
    requires a <= b
    ensures MonthStart(b) >= MonthStart(a) + (b - a)
    decreases b - a
  {
    if a < b {
      NextMonthStart(b - 1);
      MonthStartsGrow(a, b - 1);
    }
  }

  predicate Before(a: Day, b: Day) { a.month < b.month || (a.month == b.month && a.day < b.day) }

  // the first of a later month comes after every day of an earlier one
  lemma LaterMonth(a: int, b: int)
    requires a < b
    ensures MonthStart(a) + MonthLength(a) <= MonthStart(b)
  {
    NextMonthStart(a);
    MonthStartsGrow(a + 1, b);
  }

  lemma EarlierMonth(a: Day, b: Day)
    requires Valid(a) && Valid(b) && a.month < b.month
    ensures Ordinal(a) < Ordinal(b)
  {
    var s, t, n := MonthStart(a.month), MonthStart(b.month), MonthLength(a.month);
    LaterMonth(a.month, b.month);
    assert s + a.day - 1 < t + b.day - 1;
  }

  /** Comparing year, month and day in that order is comparing ordinals. */
  lemma OrdinalKeepsOrder(a: Day, b: Day)
    requires Valid(a) && Valid(b)
    ensures Before(a, b) <==> Ordinal(a) < Ordinal(b)
    ensures a == b <==> Ordinal(a) == Ordinal(b)
  {
    if a.month < b.month {
      EarlierMonth(a, b);
    } else if b.month < a.month {
      EarlierMonth(b, a);
    } else {
      assert Ordinal(a) - Ordinal(b) == a.day - b.day;
    }
  }

  // January of year 1
  const FIRST_MONTH := 12

  function DayFrom(month: int, n: int): (d: Day)
    requires MonthStart(month) <= n
    ensures Valid(d) && Ordinal(d) == n
    decreases n - MonthStart(month)
  {
    NextMonthStart(month);
    if n < MonthStart(month + 1) then Day(month, n - MonthStart(month) + 1) else DayFrom(month + 1, n)
  }

  // the date with this ordinal, from year 1 on
  function FromOrdinal(n: int): (d: Day)
    requires n >= 1
    ensures Valid(d) && Ordinal(d) == n
  {
    DayFrom(FIRST_MONTH, n)
  }

  function ShiftDays(d: Day, days: int): (e: Day)
    requires Ordinal(d) + days >= 1
    ensures Valid(e) && Ordinal(e) == Ordinal(d) + days
  {
    FromOrdinal(Ordinal(d) + days)
  }

  // 0 = Sunday ... 6 = Saturday
  function Weekday(d: Day): (w: int)
    ensures 0 <= w < 7
  {
    Ordinal(d) % 7
  }

  /** Day 1 is 1 January of year 1, a Monday; 1 January 1970 was a Thursday. */
  lemma KnownDays()
    ensures Ordinal(Day(FIRST_MONTH, 1)) == 1 && Weekday(Day(FIRST_MONTH, 1)) == 1
    ensures Ordinal(Day(12 * 1970, 1)) == 719163 && Weekday(Day(12 * 1970, 1)) == 4
  {
  }

  // day `day` of a month, clamped into short months
  function DayOfMonth(month: int, day: int): (d: Day)
    requires day >= 1
    ensures Valid(d) && d.month == month && d.day <= day
  {
    Day(month, if day < MonthLength(month) then day else MonthLength(month))
  }
}
