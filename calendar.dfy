/**
 * The proleptic Gregorian calendar of JavaScript's `Date`: day numbers count
 * days since 1970-01-01, months are numbered 0 (January) to 11 (December),
 * and the local-time constructor `new Date(y, m, date, h, min, s, ms)`
 * normalises an out-of-range month or date the way ECMAScript's `MakeDay`
 * does, so that `new Date(y, m + 1, 0)` is the last day of month `m`.
 */
module Calendar {
  import opened Records

  predicate IsLeapYear(y: int)
  {
    (y % 4 == 0 && y % 100 != 0) || y % 400 == 0
  }

  function DaysInYear(y: int): int
  {
    if IsLeapYear(y) then 366 else 365
  }

  /** Length of month `m` (0-based) of year `y`. */
  function DaysInMonth(y: int, m: int): (n: int)
    requires 0 <= m < 12
    ensures 28 <= n <= 31
    ensures n == 29 <==> m == 1 && IsLeapYear(y)
  {
    if m == 1 then (if IsLeapYear(y) then 29 else 28)
    else if m == 3 || m == 5 || m == 8 || m == 10 then 30
    else 31
  }

  /** Days of year `y` before the first of month `m`; `m == 12` gives the whole year. */
  function DaysBeforeMonth(y: int, m: int): int
    requires 0 <= m <= 12
  {
    if m == 0 then 0 else DaysBeforeMonth(y, m - 1) + DaysInMonth(y, m - 1)
  }

  /** Leap years among 1 .. y (for y >= 1; the same formula counts backwards below). */
  function LeapYearsThrough(y: int): int
  {
    y / 4 - y / 100 + y / 400
  }

  /** Day number of January 1 of year `y`. */
  function DaysBeforeYear(y: int): int
  {
    365 * (y - 1970) + LeapYearsThrough(y - 1) - LeapYearsThrough(1969)
  }

  lemma DivStep4(y: int)
    ensures y / 4 - (y - 1) / 4 == if y % 4 == 0 then 1 else 0
  {
  }

  lemma DivStep100(y: int)
    ensures y / 100 - (y - 1) / 100 == if y % 100 == 0 then 1 else 0
  {
  }

  lemma DivStep400(y: int)
    ensures y / 400 - (y - 1) / 400 == if y % 400 == 0 then 1 else 0
  {
  }

  /** The leap-year count rises by one exactly at a leap year. */
  lemma LeapStep(y: int)
    ensures LeapYearsThrough(y) - LeapYearsThrough(y - 1) == if IsLeapYear(y) then 1 else 0
  {
    DivStep4(y);
    DivStep100(y);
    DivStep400(y);
    if y % 400 == 0 {
      assert y == 400 * (y / 400);
      assert y == 100 * (4 * (y / 400));
      assert y == 4 * (100 * (y / 400));
    } else if y % 100 == 0 {
      assert y == 100 * (y / 100);
      assert y == 4 * (25 * (y / 100));
    }
  }

  /** Consecutive New Year's days are one year's length apart. */
  lemma YearStep(y: int)
    ensures DaysBeforeYear(y + 1) == DaysBeforeYear(y) + DaysInYear(y)
  {
    LeapStep(y);
  }

  /** The twelve months fill the year exactly. */
  lemma WholeYear(y: int)
    ensures DaysBeforeMonth(y, 12) == DaysInYear(y)
  {
    var feb := DaysInMonth(y, 1);
    assert DaysBeforeMonth(y, 1) == 31;
    assert DaysBeforeMonth(y, 2) == 31 + feb;
    assert DaysBeforeMonth(y, 3) == 62 + feb;
    assert DaysBeforeMonth(y, 4) == 92 + feb;
    assert DaysBeforeMonth(y, 5) == 123 + feb;
    assert DaysBeforeMonth(y, 6) == 153 + feb;
    assert DaysBeforeMonth(y, 7) == 184 + feb;
    assert DaysBeforeMonth(y, 8) == 215 + feb;
    assert DaysBeforeMonth(y, 9) == 245 + feb;
    assert DaysBeforeMonth(y, 10) == 276 + feb;
    assert DaysBeforeMonth(y, 11) == 306 + feb;
  }

  /**
   * `MakeDay(y, m, date)`: the day number of day `date` of month `m` of year
   * `y`, where the month is first carried into the year (floor division) and
   * the date is counted from the first of the month, so that date 0 is the
   * day before it.
   */
  function MakeDay(y: int, m: int, date: int): int
  {
    var ym := y + m / 12;
    var mn := m % 12;
    DaysBeforeYear(ym) + DaysBeforeMonth(ym, mn) + date - 1
  }

  /** `MakeTime(h, min, s, ms)` in milliseconds. */
  function MakeTime(h: int, min: int, s: int, ms: int): int
  {
    h * MsPerHour + min * 60000 + s * MsPerSecond + ms
  }

  /** `new Date(y, m, date, h, min, s, ms)` where local time is `offset` ms ahead of UTC. */
  function LocalInstant(y: int, m: int, date: int, h: int, min: int, s: int, ms: int, offset: int): Instant
  {
    MakeDay(y, m, date) * MsPerDay + MakeTime(h, min, s, ms) - offset
  }

  /** An inclusive range of instants, `gte: start, lte: end`. */
  datatype Window = Window(start: Instant, end: Instant)

  predicate InWindow(w: Window, t: Instant)
  {
    w.start <= t <= w.end
  }

  /**
   * The current-month window of the dashboard: `new Date(y, m, 1)` to
   * `new Date(y, m + 1, 0, 23, 59, 59, 999)`.
   */
  function MonthWindow(y: int, m: int, offset: int): Window
  {
    Window(LocalInstant(y, m, 1, 0, 0, 0, 0, offset), LocalInstant(y, m + 1, 0, 23, 59, 59, 999, offset))
  }

  /** An in-range month needs no carry. */
  lemma MakeDayInYear(y: int, m: int, date: int)
    requires 0 <= m < 12
    ensures MakeDay(y, m, date) == DaysBeforeYear(y) + DaysBeforeMonth(y, m) + date - 1
  {
    assert m / 12 == 0 && m % 12 == m;
  }

  /** Month 12 is January of the next year. */
  lemma MakeDayCarry(y: int, date: int)
    ensures MakeDay(y, 12, date) == DaysBeforeYear(y + 1) + date - 1
  {
    assert 12 / 12 == 1 && 12 % 12 == 0;
  }

  /** Day 0 of the next month is the last day of this one, also across New Year. */
  lemma MakeDayLastOfMonth(y: int, m: int)
    requires 0 <= m < 12
    ensures MakeDay(y, m, 1) == DaysBeforeYear(y) + DaysBeforeMonth(y, m)
    ensures MakeDay(y, m + 1, 0) == MakeDay(y, m, 1) + DaysInMonth(y, m) - 1
  {
    MakeDayInYear(y, m, 1);
    if m == 11 {
      MakeDayCarry(y, 0);
      YearStep(y);
      WholeYear(y);
    } else {
      MakeDayInYear(y, m + 1, 0);
    }
  }

  /** The (year, month) after `(y, m)`. */
  function NextMonth(y: int, m: int): (int, int)
    requires 0 <= m < 12
  {
    if m == 11 then (y + 1, 0) else (y, m + 1)
  }

  /** The two ends of a month window, as day numbers. */
  lemma MonthWindowEnds(y: int, m: int, offset: int)
    requires 0 <= m < 12
    ensures MonthWindow(y, m, offset).start == MakeDay(y, m, 1) * MsPerDay - offset
    ensures MonthWindow(y, m, offset).end == (MakeDay(y, m, 1) + DaysInMonth(y, m)) * MsPerDay - 1 - offset
  {
    MakeDayLastOfMonth(y, m);
    var first := MakeDay(y, m, 1);
    var n := DaysInMonth(y, m);
    assert MakeDay(y, m + 1, 0) == first + n - 1;
    assert MakeTime(23, 59, 59, 999) == 86400000 - 1;
    assert (first + n - 1) * 86400000 + 86400000 - 1 == (first + n) * 86400000 - 1;
  }

  /**
   * The month window starts at local midnight of the first, holds exactly the
   * month's days, and ends one millisecond before the next month's window
   * begins, so consecutive months neither overlap nor leave a gap.
   */
  lemma MonthWindowSpan(y: int, m: int, offset: int)
    requires 0 <= m < 12
    ensures MonthWindow(y, m, offset).start == (DaysBeforeYear(y) + DaysBeforeMonth(y, m)) * MsPerDay - offset
    ensures MonthWindow(y, m, offset).end - MonthWindow(y, m, offset).start + 1 == DaysInMonth(y, m) * MsPerDay
    ensures MonthWindow(y, m, offset).end + 1 == MonthWindow(NextMonth(y, m).0, NextMonth(y, m).1, offset).start
  {
    MakeDayLastOfMonth(y, m);
    MonthWindowEnds(y, m, offset);
    var next := NextMonth(y, m);
    MonthWindowEnds(next.0, next.1, offset);
    NextMonthFirst(y, m);
  }

  /** The first of the next month follows the last day of this one. */
  lemma NextMonthFirst(y: int, m: int)
    requires 0 <= m < 12
    ensures MakeDay(NextMonth(y, m).0, NextMonth(y, m).1, 1) == MakeDay(y, m, 1) + DaysInMonth(y, m)
  {
    if m == 11 {
      DecemberToNewYear(y);
    } else {
      MonthStep(y, m);
    }
  }

  /** Within a year, the first of the next month follows the last of this one. */
  lemma MonthStep(y: int, m: int)
    requires 0 <= m < 11
    ensures MakeDay(y, m + 1, 1) == MakeDay(y, m, 1) + DaysInMonth(y, m)
  {
    MakeDayInYear(y, m, 1);
    MakeDayInYear(y, m + 1, 1);
  }

  /** January 1 of the next year follows December 31. */
  lemma DecemberToNewYear(y: int)
    ensures MakeDay(y + 1, 0, 1) == MakeDay(y, 11, 1) + DaysInMonth(y, 11)
  {
    MakeDayInYear(y, 11, 1);
    MakeDayInYear(y + 1, 0, 1);
    YearStep(y);
    WholeYear(y);
    assert DaysBeforeMonth(y, 12) == DaysBeforeMonth(y, 11) + DaysInMonth(y, 11);
  }

  /**
   * An instant is in the month window exactly when its local day is one of
   * the month's days.
   */
  lemma MonthWindowDays(y: int, m: int, offset: int, t: Instant)
    requires 0 <= m < 12
    ensures InWindow(MonthWindow(y, m, offset), t)
        <==> MakeDay(y, m, 1) <= (t + offset) / MsPerDay < MakeDay(y, m, 1) + DaysInMonth(y, m)
  {
    MonthWindowEnds(y, m, offset);
  }

  /** February 2024, a leap month, at UTC: day 19754 to day 19782. */
  lemma LeapFebruary()
    ensures MonthWindow(2024, 1, 0).start == 19754 * MsPerDay
    ensures MonthWindow(2024, 1, 0).end == 19783 * MsPerDay - 1
  {
    assert LeapYearsThrough(2023) == 490 && LeapYearsThrough(1969) == 477;
    assert DaysBeforeYear(2024) == 19723;
    assert DaysBeforeMonth(2024, 1) == 31;
    MakeDayInYear(2024, 1, 1);
    assert IsLeapYear(2024);
    MonthWindowEnds(2024, 1, 0);
  }

  /** December 2023 ends where January 2024 begins, three hours ahead of UTC. */
  lemma DecemberIntoJanuary()
    ensures MonthWindow(2023, 11, 3 * MsPerHour).end + 1 == MonthWindow(2024, 0, 3 * MsPerHour).start
    ensures MonthWindow(2024, 0, 3 * MsPerHour).start == 19723 * MsPerDay - 3 * MsPerHour
  {
    MonthWindowSpan(2023, 11, 3 * MsPerHour);
    assert NextMonth(2023, 11) == (2024, 0);
    NewYear2024();
    MonthWindowEnds(2024, 0, 3 * MsPerHour);
  }

  /** January 1, 2024 is day 19723. */
  lemma NewYear2024()
    ensures MakeDay(2024, 0, 1) == 19723
  {
    assert LeapYearsThrough(2023) == 490 && LeapYearsThrough(1969) == 477;
    assert DaysBeforeYear(2024) == 19723;
    MakeDayInYear(2024, 0, 1);
  }
}
