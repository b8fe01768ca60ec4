/**
 * The calendar the billing code computes with: proleptic Gregorian dates,
 * PHP's `checkdate()`, and the Carbon date operations the plan calculator
 * calls (`addDays`, `addMonth`, `subMonth`, `addYears`, the `year`, `month`
 * and `day` setters, `daysInMonth`, `diffInDays`).
 *
 * Carbon lets a day-of-month overflow: setting a day that the month does not
 * have, or moving Jan 31 forward by one month, carries the surplus days into
 * the following month(s), and day 0 (or a negative day) borrows from the
 * previous month(s). `Normalize` is that carry, and every Carbon operation
 * below is written with it. Time of day and time zones are not modelled.
 */
module Calendar {

  /** A Carbon instant reduced to its calendar date. */
  datatype Date = Date(year: int, month: int, day: int)

  predicate IsLeapYear(y: int) {
    y % 4 == 0 && (y % 100 != 0 || y % 400 == 0)
  }

  function DaysInMonth(y: int, m: int): (n: int)
    requires 1 <= m <= 12
    ensures 28 <= n <= 31
  {
    if m == 2 then (if IsLeapYear(y) then 29 else 28)
    else if m == 4 || m == 6 || m == 9 || m == 11 then 30
    else 31
  }

  /** A date that exists on the calendar (every Carbon instance is one). */
  predicate ValidDate(d: Date) {
    1 <= d.month <= 12 && 1 <= d.day <= DaysInMonth(d.year, d.month)
  }

  /**
   * PHP's `checkdate(month, day, year)`: true for a real Gregorian date whose
   * year lies in 1..32767.
   */
  predicate IsCalendarDate(month: int, day: int, year: int) {
    1 <= year <= 32767 && 1 <= month <= 12 && 1 <= day <= DaysInMonth(year, month)
  }

  function NextYear(y: int, m: int): int { if m == 12 then y + 1 else y }
  function NextMonth(m: int): int { if m == 12 then 1 else m + 1 }
  function PrevYear(y: int, m: int): int { if m == 1 then y - 1 else y }
  function PrevMonth(m: int): int { if m == 1 then 12 else m - 1 }

  /** Months counted from January of year 0. */
  function MonthIndex(d: Date): int { 12 * d.year + d.month - 1 }
  function YearOfIndex(i: int): int { i / 12 }
  function MonthOfIndex(i: int): (m: int)
    ensures 1 <= m <= 12
  {
    i % 12 + 1
  }

  /**
   * The date that PHP/Carbon make of year `y`, month `m` and a day number
   * `d` that may lie outside the month: surplus days run into the following
   * months, and days below 1 count back into the preceding months.
   */
  function Normalize(y: int, m: int, d: int): (r: Date)
    requires 1 <= m <= 12
    ensures ValidDate(r)
    decreases (if d < 1 then 1 - d else 0), (if d < 1 then 0 else d)
  {
    if d < 1 then
      Normalize(PrevYear(y, m), PrevMonth(m), d + DaysInMonth(PrevYear(y, m), PrevMonth(m)))
    else if d > DaysInMonth(y, m) then
      Normalize(NextYear(y, m), NextMonth(m), d - DaysInMonth(y, m))
    else
      Date(y, m, d)
  }

  //
  // Day numbers
  //

  /** Days from 0001-01-01 to January 1 of year `y`. */
  function DaysBeforeYear(y: int): int {
    var p := y - 1;
    365 * p + p / 4 - p / 100 + p / 400
  }

  /** Days of year `y` before the first of month `m`. */
  function DaysBeforeMonth(y: int, m: int): int
    requires 1 <= m <= 12
  {
    var leap := if IsLeapYear(y) then 1 else 0;
    if m == 1 then 0
    else if m == 2 then 31
    else if m == 3 then 59 + leap
    else if m == 4 then 90 + leap
    else if m == 5 then 120 + leap
    else if m == 6 then 151 + leap
    else if m == 7 then 181 + leap
    else if m == 8 then 212 + leap
    else if m == 9 then 243 + leap
    else if m == 10 then 273 + leap
    else if m == 11 then 304 + leap
    else 334 + leap
  }

  /** The day number of day `d` of month `m` of year `y`, for any `d`. */
  function Serial(y: int, m: int, d: int): int
    requires 1 <= m <= 12
  {
    DaysBeforeYear(y) + DaysBeforeMonth(y, m) + d
  }

  /** Day number of a date: consecutive calendar days have consecutive numbers. */
  function DayNumber(d: Date): int
    requires 1 <= d.month <= 12
  {
    Serial(d.year, d.month, d.day)
  }

  /** A year has 365 days, 366 when it is a leap year. */
  lemma YearLength(y: int)
    ensures DaysBeforeYear(y + 1) - DaysBeforeYear(y) == if IsLeapYear(y) then 366 else 365
  {
    StepOver4(y);
    StepOver100(y);
    StepOver400(y);
    if y % 400 == 0 {
      assert y % 100 == 0 && y % 4 == 0;
    } else if y % 100 == 0 {
      assert y % 4 == 0;
    }
  }

  /** Leap days counted so far: one more at each multiple of 4, ... */
  lemma StepOver4(y: int)
    ensures y / 4 - (y - 1) / 4 == if y % 4 == 0 then 1 else 0
  {
  }

  /** ... one fewer at each multiple of 100, ... */
  lemma StepOver100(y: int)
    ensures y / 100 - (y - 1) / 100 == if y % 100 == 0 then 1 else 0
  {
  }

  /** ... and one more again at each multiple of 400. */
  lemma StepOver400(y: int)
    ensures y / 400 - (y - 1) / 400 == if y % 400 == 0 then 1 else 0
  {
  }

  /** Day 0 of the next month is the last day of this one. */
  lemma MonthStep(y: int, m: int)
    requires 1 <= m <= 12
    ensures Serial(NextYear(y, m), NextMonth(m), 0) == Serial(y, m, 0) + DaysInMonth(y, m)
  {
    if m == 12 {
      YearLength(y);
    }
  }

  /** Years follow each other on the day-number line. */
  lemma YearsGrow(y1: int, y2: int)
    requires y1 < y2
    ensures DaysBeforeYear(y1 + 1) <= DaysBeforeYear(y2)
  {
  }

  /** Months of one year follow each other on the day-number line. */
  lemma MonthsGrow(y: int, m1: int, m2: int)
    requires 1 <= m1 < m2 <= 12
    ensures DaysBeforeMonth(y, m1) + DaysInMonth(y, m1) <= DaysBeforeMonth(y, m2)
  {
  }

  /** The whole of month `m` lies within its year. */
  lemma MonthInYear(y: int, m: int)
    requires 1 <= m <= 12
    ensures DaysBeforeMonth(y, m) + DaysInMonth(y, m) <= if IsLeapYear(y) then 366 else 365
  {
  }

  /** Normalizing a date keeps its day number: the carry only renames the day. */
  lemma {:induction false} NormalizeSerial(y: int, m: int, d: int)
    requires 1 <= m <= 12
    ensures DayNumber(Normalize(y, m, d)) == Serial(y, m, d)
    decreases (if d < 1 then 1 - d else 0), (if d < 1 then 0 else d)
  {
    if d < 1 {
      var py, pm := PrevYear(y, m), PrevMonth(m);
      NormalizeSerial(py, pm, d + DaysInMonth(py, pm));
      MonthStep(py, pm);
    } else if d > DaysInMonth(y, m) {
      NormalizeSerial(NextYear(y, m), NextMonth(m), d - DaysInMonth(y, m));
      MonthStep(y, m);
    }
  }

  /** A valid date is left as it is by `Normalize`. */
  lemma NormalizeValid(d: Date)
    requires ValidDate(d)
    ensures Normalize(d.year, d.month, d.day) == d
  {
  }

  /** `a` lies strictly before `b` in calendar order. */
  predicate Before(a: Date, b: Date) {
    MonthIndex(a) < MonthIndex(b) || (MonthIndex(a) == MonthIndex(b) && a.day < b.day)
  }

  /** Day numbers follow calendar order. */
  lemma DayNumberOrder(a: Date, b: Date)
    requires ValidDate(a) && ValidDate(b) && Before(a, b)
    ensures DayNumber(a) < DayNumber(b)
  {
    if a.year < b.year {
      MonthInYear(a.year, a.month);
      YearLength(a.year);
      YearsGrow(a.year, b.year);
    } else if a.month < b.month {
      MonthsGrow(a.year, a.month, b.month);
    }
  }

  /** Two valid dates with the same day number are the same date. */
  lemma DayNumberInjective(a: Date, b: Date)
    requires ValidDate(a) && ValidDate(b) && DayNumber(a) == DayNumber(b)
    ensures a == b
  {
    if Before(a, b) {
      DayNumberOrder(a, b);
    } else if Before(b, a) {
      DayNumberOrder(b, a);
    } else {
      SameMonthIndex(a, b);
    }
  }

  /** The month index determines the year and the month. */
  lemma SameMonthIndex(a: Date, b: Date)
    requires 1 <= a.month <= 12 && 1 <= b.month <= 12 && MonthIndex(a) == MonthIndex(b)
    ensures a.year == b.year && a.month == b.month
  {
    assert 12 * (a.year - b.year) == b.month - a.month;
  }

  //
  // Carbon operations
  //

  /** Carbon `addDays(n)`. */
  function AddDays(d: Date, n: int): (r: Date)
    requires ValidDate(d)
    ensures ValidDate(r) && DayNumber(r) == DayNumber(d) + n
  {
    NormalizeSerial(d.year, d.month, d.day + n);
    Normalize(d.year, d.month, d.day + n)
  }

  /**
   * Carbon `addMonths(k)` with month overflow (Carbon's default, also behind
   * `addMonth()` and `subMonth()`): move the month, keep the day number and
   * let a day the target month lacks run into the month after it.
   */
  function AddMonths(d: Date, k: int): (r: Date)
    requires ValidDate(d)
    ensures ValidDate(r)
  {
    var i := MonthIndex(d) + k;
    Normalize(YearOfIndex(i), MonthOfIndex(i), d.day)
  }

  /** Carbon `addMonth()`. */
  function AddMonth(d: Date): (r: Date)
    requires ValidDate(d)
    ensures ValidDate(r)
  {
    AddMonths(d, 1)
  }

  /** Carbon `subMonth()`: always a different date, even when the day overflows. */
  function SubMonth(d: Date): (r: Date)
    requires ValidDate(d)
    ensures ValidDate(r)
    ensures r != d
  {
    AddMonthsShape(d, -1);
    AddMonths(d, -1)
  }

  /**
   * Where `AddMonths(d, k)` lands: on day `d.day` of the target month when that
   * month has it, otherwise (by at most three days) in the following month,
   * which then always has 31 days.
   */
  lemma AddMonthsShape(d: Date, k: int)
    requires ValidDate(d)
    ensures var i := MonthIndex(d) + k;
      var ty, tm := YearOfIndex(i), MonthOfIndex(i);
      && (d.day <= DaysInMonth(ty, tm) ==>
            AddMonths(d, k) == Date(ty, tm, d.day))
      && (d.day > DaysInMonth(ty, tm) ==>
            && AddMonths(d, k) == Date(NextYear(ty, tm), NextMonth(tm), d.day - DaysInMonth(ty, tm))
            && MonthIndex(AddMonths(d, k)) == i + 1
            && DaysInMonth(NextYear(ty, tm), NextMonth(tm)) == 31)
  {
    var i := MonthIndex(d) + k;
    var ty, tm := YearOfIndex(i), MonthOfIndex(i);
    if d.day > DaysInMonth(ty, tm) {
      var r := Normalize(NextYear(ty, tm), NextMonth(tm), d.day - DaysInMonth(ty, tm));
      assert r == Date(NextYear(ty, tm), NextMonth(tm), d.day - DaysInMonth(ty, tm));
    }
  }

  /** Carbon `addYears(k)`: Feb 29 in a year that has none becomes Mar 1. */
  function AddYears(d: Date, k: int): (r: Date)
    requires ValidDate(d)
    ensures ValidDate(r)
    ensures d.day <= DaysInMonth(d.year + k, d.month) ==> r == Date(d.year + k, d.month, d.day)
    ensures d.day > DaysInMonth(d.year + k, d.month) ==> r == Date(d.year + k, 3, 1)
  {
    if d.day > DaysInMonth(d.year + k, d.month) then
      var r := Normalize(d.year + k, 3, 1);
      assert r == Date(d.year + k, 3, 1);
      Normalize(d.year + k, d.month, d.day)
    else
      Normalize(d.year + k, d.month, d.day)
  }

  /** Carbon's `$date->year = y`. */
  function SetYear(d: Date, y: int): (r: Date)
    requires ValidDate(d)
    ensures ValidDate(r)
  {
    Normalize(y, d.month, d.day)
  }

  /** Carbon's `$date->month = m`. */
  function SetMonth(d: Date, m: int): (r: Date)
    requires ValidDate(d) && 1 <= m <= 12
    ensures ValidDate(r)
  {
    Normalize(d.year, m, d.day)
  }

  /**
   * Carbon's `$date->day = v`. A day the month lacks runs into the next
   * month; day 0 is the last day of the previous month.
   */
  function SetDay(d: Date, v: int): (r: Date)
    requires ValidDate(d)
    ensures ValidDate(r)
    ensures 1 <= v <= DaysInMonth(d.year, d.month) ==> r == Date(d.year, d.month, v)
  {
    Normalize(d.year, d.month, v)
  }

  /** Carbon's `daysInMonth` property. */
  function DaysInMonthOf(d: Date): (n: int)
    requires ValidDate(d)
    ensures 28 <= n <= 31
  {
    DaysInMonth(d.year, d.month)
  }

  /**
   * Carbon `diffInDays` (absolute by default): the number of days to add to
   * the earlier date to reach the later one.
   */
  function DiffInDays(a: Date, b: Date): (n: int)
    requires ValidDate(a) && ValidDate(b)
    ensures n >= 0
    ensures n == 0 <==> a == b
    ensures DayNumber(a) <= DayNumber(b) ==> AddDays(a, n) == b
    ensures DayNumber(b) <= DayNumber(a) ==> AddDays(b, n) == a
  {
    if DayNumber(a) == DayNumber(b) then
      DayNumberInjective(a, b);
      DayNumberInjective(AddDays(a, 0), b);
      0
    else if DayNumber(a) > DayNumber(b) then
      DayNumberInjective(AddDays(b, DayNumber(a) - DayNumber(b)), a);
      DayNumber(a) - DayNumber(b)
    else
      DayNumberInjective(AddDays(a, DayNumber(b) - DayNumber(a)), b);
      DayNumber(b) - DayNumber(a)
  }
}
