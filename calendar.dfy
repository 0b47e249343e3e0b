/** The abstract calendar that replaces JavaScript `Date`: proleptic Gregorian
    dates, month lengths, serial day numbers and weekdays. */
module Calendar {

  import Common

  /** A calendar date, one per `YYYY-MM-DD` key. `month` is 0-based, as
      `Date.getMonth()` returns it; `day` is 1-based. */
  datatype DateKey = DateKey(year: int, month: int, day: int)

  predicate IsLeapYear(y: int)
  {
    y % 4 == 0 && (y % 100 != 0 || y % 400 == 0)
  }

  /** `new Date(y, m + 1, 0).getDate()`: the last day of month `m`. */
  function DaysInMonth(y: int, m: int): (r: int)
    requires 0 <= m < 12
    ensures 28 <= r <= 31
  {
    if m == 1 then (if IsLeapYear(y) then 29 else 28)
    else if m == 3 || m == 5 || m == 8 || m == 10 then 30
    else 31
  }

  predicate ValidDate(k: DateKey)
  {
    0 <= k.month < 12 && 1 <= k.day <= DaysInMonth(k.year, k.month)
  }

  /** Days of year `y` that precede the first of month `m`. */
  function DaysBeforeMonth(y: int, m: int): (r: int)
    requires 0 <= m <= 12
    ensures r >= 28 * m
  {
    if m == 0 then 0 else DaysBeforeMonth(y, m - 1) + DaysInMonth(y, m - 1)
  }

  /** Days from 0001-01-01 to January 1st of year `y`. */
  function DaysBeforeYear(y: int): int
  {
    var p := y - 1;
    365 * p + p / 4 - p / 100 + p / 400
  }

  /** Serial day number: 0001-01-01 is day 0. Adding one day is adding 1. */
  function DayNumber(k: DateKey): int
    requires 0 <= k.month < 12
  {
    DaysBeforeYear(k.year) + DaysBeforeMonth(k.year, k.month) + k.day - 1
  }

  /** `getDay()`: 0 is Sunday, 6 is Saturday (0001-01-01 was a Monday). */
  function DayOfWeek(n: int): (r: int)
    ensures 0 <= r < 7
  {
    (n + 1) % 7
  }

  /** The weekday of a day of a month, as the generators compute it. */
  function Weekday(y: int, m: int, d: int): (r: int)
    requires 0 <= m < 12
    ensures 0 <= r < 7
  {
    DayOfWeek(DayNumber(DateKey(y, m, d)))
  }

  /** The weekday of the first day of a month. */
  function FirstWeekday(y: int, m: int): (r: int)
    requires 0 <= m < 12
    ensures 0 <= r < 7
  {
    Weekday(y, m, 1)
  }

  /** The weekday of day `d` of a month whose first day has weekday `first`. */
  function WeekdayAt(first: int, d: int): (w: int)
    ensures 0 <= w < 7
  {
    (first + d - 1) % 7
  }

  /** Within a month, weekdays follow on from the first day's. */
  lemma WeekdayFromFirst(y: int, m: int, d: int)
    requires 0 <= m < 12
    ensures Weekday(y, m, d) == (FirstWeekday(y, m) + d - 1) % 7
  {
    var n := DayNumber(DateKey(y, m, 1));
    assert DayNumber(DateKey(y, m, d)) == n + d - 1;
    assert FirstWeekday(y, m) == (n + 1) % 7;
    Common.ModAddMultiple(n + d, 0, 7);
    assert ((n + 1) % 7 + d - 1) % 7 == (n + d) % 7 by {
      var q := (n + 1) / 7;
      assert (n + 1) % 7 + d - 1 == n + d - 7 * q;
      Common.ModAddMultiple(n + d, -q, 7);
    }
  }

  /** `setMonth(getMonth() + 1)`: the month after (y, m), rolling the year. */
  function NextMonth(y: int, m: int): (r: (int, int))
    requires 0 <= m < 12
    ensures 0 <= r.1 < 12
    ensures r.0 * 12 + r.1 == y * 12 + m + 1
  {
    if m == 11 then (y + 1, 0) else (y, m + 1)
  }

  /** The twelve months add up to the length of the year. */
  lemma {:induction false} YearLength(y: int)
    ensures DaysBeforeMonth(y, 12) == if IsLeapYear(y) then 366 else 365
  {
    var f := DaysInMonth(y, 1);
    assert DaysBeforeMonth(y, 1) == 31;
    assert DaysBeforeMonth(y, 2) == 31 + f;
    assert DaysBeforeMonth(y, 3) == 62 + f;
    assert DaysBeforeMonth(y, 4) == 92 + f;
    assert DaysBeforeMonth(y, 5) == 123 + f;
    assert DaysBeforeMonth(y, 6) == 153 + f;
    assert DaysBeforeMonth(y, 7) == 184 + f;
    assert DaysBeforeMonth(y, 8) == 215 + f;
    assert DaysBeforeMonth(y, 9) == 245 + f;
    assert DaysBeforeMonth(y, 10) == 276 + f;
    assert DaysBeforeMonth(y, 11) == 306 + f;
  }

  /** Consecutive new-year days are one year-length apart. */
  lemma YearStep(y: int)
    ensures DaysBeforeYear(y + 1) - DaysBeforeYear(y) == DaysBeforeMonth(y, 12)
  {
    YearLength(y);
    var p := y - 1;
    assert y / 4 - p / 4 == (if y % 4 == 0 then 1 else 0);
    assert y / 100 - p / 100 == (if y % 100 == 0 then 1 else 0);
    assert y / 400 - p / 400 == (if y % 400 == 0 then 1 else 0);
  }

  /** Month lengths tile the calendar: the day after the last day of a month
      is the first day of the next month, across year ends too. */
  lemma MonthsTile(y: int, m: int)
    requires 0 <= m < 12
    ensures DayNumber(DateKey(y, m, DaysInMonth(y, m))) + 1
         == DayNumber(DateKey(NextMonth(y, m).0, NextMonth(y, m).1, 1))
  {
    if m == 11 {
      YearStep(y);
    }
  }

  /** A month ends no later than any later month of its year begins. */
  lemma {:induction false} MonthEndBound(y: int, m1: int, m2: int)
    requires 0 <= m1 < m2 <= 12
    ensures DaysBeforeMonth(y, m1) + DaysInMonth(y, m1) <= DaysBeforeMonth(y, m2)
    decreases m2
  {
    if m2 > m1 + 1 {
      MonthEndBound(y, m1, m2 - 1);
    }
  }

  /** Each year ends no later than any later year begins. */
  lemma {:induction false} YearsOrdered(a: int, b: int)
    requires a < b
    ensures DaysBeforeYear(a + 1) <= DaysBeforeYear(b)
    decreases b - a
  {
    if b > a + 1 {
      YearsOrdered(a, b - 1);
      YearStep(b - 1);
      YearLength(b - 1);
    }
  }

  /** A valid date's number lies inside its own year. */
  lemma YearBounds(k: DateKey)
    requires ValidDate(k)
    ensures DaysBeforeYear(k.year) <= DayNumber(k) < DaysBeforeYear(k.year + 1)
  {
    MonthEndBound(k.year, k.month, 12);
    YearStep(k.year);
  }

  /** Day numbers follow the order of dates. */
  lemma DayNumberOrdered(a: DateKey, b: DateKey)
    requires ValidDate(a) && ValidDate(b)
    ensures a.year < b.year ==> DayNumber(a) < DayNumber(b)
    ensures a.year == b.year && a.month < b.month ==> DayNumber(a) < DayNumber(b)
  {
    if a.year < b.year {
      YearsOrdered(a.year, b.year);
      YearBounds(a);
      YearBounds(b);
    }
    if a.year == b.year && a.month < b.month {
      MonthEndBound(a.year, a.month, b.month);
    }
  }

  /** Distinct valid dates have distinct day numbers, so a map keyed by day
      number holds the same entries as one keyed by date. */
  lemma DayNumberInjective(a: DateKey, b: DateKey)
    requires ValidDate(a) && ValidDate(b) && DayNumber(a) == DayNumber(b)
    ensures a == b
  {
    DayNumberOrdered(a, b);
    DayNumberOrdered(b, a);
  }

  /** Fixed points of the calendar the examples rely on. */
  lemma KnownWeekdays()
    ensures DayOfWeek(DayNumber(DateKey(1970, 0, 1))) == 4
    ensures DayOfWeek(DayNumber(DateKey(2025, 4, 31))) == 6
    ensures DayOfWeek(DayNumber(DateKey(2025, 5, 1))) == 0
  {
  }
}
