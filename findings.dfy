/**
 * Three places where the billing calculator, as written, departs from what
 * its own comments and names promise. For each one: a concrete input on the
 * model of the code as written, and a corrected definition with the intended
 * property proved about it.
 */
module PlanFindings {
  import opened Wrappers
  import opened Calendar
  import opened Plans
  import opened PlanProperties

  //
  // F1: checkDate never answers 28
  //

  /**
   * As written, `checkDate(30, 2, 2023)` finds no day (its count-down stops
   * above 28), so a `monthly_free` plan billed on the 30th whose period
   * starts on 2023-01-10 ends on 2023-01-31 (day 0 of February) instead of
   * on February's last day, 2023-02-28.
   */
  lemma ClampDayMissesShortFebruary()
    ensures ClampDay(30, 2, 2023) == None
    ensures PeriodEndDate(Plan(TYPE_MONTHLY, MONTHLY_FREE, 0, 30, 1, 0, 10.0, None), Date(2023, 1, 10))
      == Ok(Some(Date(2023, 1, 31)))
  {
    ClampDayClosedForm(30, 2, 2023);
    var plan := Plan(TYPE_MONTHLY, MONTHLY_FREE, 0, 30, 1, 0, 10.0, None);
    var start := Date(2023, 1, 10);
    assert AddMonth(start) == Date(2023, 2, 10);
    assert AnchorDay(plan, Date(2023, 2, 10)) == 0;
    assert Normalize(2023, 1, 31) == Date(2023, 1, 31);
  }

  /**
   * "The first valid day from" `day`: the day itself up to 28, otherwise the
   * month's length when `day` runs past it. Every month has at least 28
   * days, so there always is one.
   */
  function ClampDayIntended(day: int, month: int, year: int): (r: int)
    requires 1 <= month <= 12 && 1 <= year <= 32767 && 1 <= day
    ensures IsCalendarDate(month, r, year) && r <= day
    ensures forall k :: r < k <= day ==> !IsCalendarDate(month, k, year)
  {
    if day <= 28 then day else Min(day, DaysInMonth(year, month))
  }

  /** The corrected clamp only fills the gap: wherever the PHP `checkDate` answers, it agrees. */
  lemma ClampDayIntendedExtends(day: int, month: int, year: int)
    requires 1 <= month <= 12 && 1 <= year <= 32767 && 1 <= day
    ensures ClampDay(day, month, year).Some? ==> ClampDay(day, month, year).value == ClampDayIntended(day, month, year)
    ensures ClampDay(day, month, year).None? <==> day > 28 && DaysInMonth(year, month) == 28
  {
    ClampDayClosedForm(day, month, year);
  }

  //
  // F2: the next period is found with an overflowing addMonth
  //

  /**
   * As written, a `monthly_signup` period starting on 2023-01-31 ends on
   * 2023-03-31: `addMonth()` overflows into March and the year and month of
   * that date are then used. February is skipped. A prorated plan billed on
   * the 31st that starts on its billing day skips February the same way.
   */
  lemma SignupSkipsFebruary()
    ensures PeriodEndDate(Plan(TYPE_MONTHLY, MONTHLY_SIGNUP, 0, 1, 1, 0, 10.0, None), Date(2023, 1, 31))
      == Ok(Some(Date(2023, 3, 31)))
    ensures PeriodEndDate(Plan(TYPE_MONTHLY, MONTHLY_PRORATE, 0, 31, 1, 0, 10.0, None), Date(2023, 1, 31))
      == Ok(Some(Date(2023, 3, 31)))
  {
    var start := Date(2023, 1, 31);
    AddMonthsShape(start, 1);
    assert AddMonth(start) == Date(2023, 3, 3);
    ClampDayClosedForm(31, 3, 2023);
    ClampDayClosedForm(31, 1, 2023);
    MoveToNextMonth(start, 31);
    assert Normalize(2023, 3, 31) == Date(2023, 3, 31);
  }

  /**
   * Carbon's `addMonthNoOverflow()`: the following calendar month, on the
   * same day or that month's last day if it is shorter.
   */
  function AddMonthNoOverflow(d: Date): (r: Date)
    requires ValidDate(d)
    ensures ValidDate(r)
    ensures MonthIndex(r) == MonthIndex(d) + 1
    ensures r.day == Min(d.day, DaysInMonth(r.year, r.month))
  {
    var y, m := NextYear(d.year, d.month), NextMonth(d.month);
    Date(y, m, Min(d.day, DaysInMonth(y, m)))
  }

  /**
   * The intended `monthly_signup` period end: one calendar month after the
   * start, never skipping a month, on the start's day cut to that month.
   */
  function SignupEndIntended(start: Date): (r: Date)
    requires ValidDate(start)
    ensures ValidDate(r) && Before(start, r)
    ensures MonthIndex(r) == MonthIndex(start) + 1
    ensures r.day == Min(start.day, DaysInMonth(r.year, r.month))
  {
    AddMonthNoOverflow(start)
  }

  /**
   * Whenever the start's day exists in the following month, the PHP code's
   * end date is the intended one: the two differ only when `addMonth()`
   * overflows.
   */
  lemma SignupEndAgreesWithoutOverflow(plan: Plan, start: Date)
    requires ValidDate(start) && InCheckdateRange(start)
    requires IsMonthly(plan) && plan.monthlyBehavior == MONTHLY_SIGNUP
    requires start.day <= DaysInMonth(NextYear(start.year, start.month), NextMonth(start.month))
    ensures PeriodEndDate(plan, start) == Ok(Some(SignupEndIntended(start)))
  {
    SignupPeriodEnd(plan, start);
    AddMonthsShape(start, 1);
    var i := MonthIndex(start) + 1;
    assert YearOfIndex(i) == NextYear(start.year, start.month) && MonthOfIndex(i) == NextMonth(start.month);
    var e := PeriodEndDate(plan, start).value.value;
    var s := SignupEndIntended(start);
    assert e.year == s.year && e.month == s.month;
  }

  //
  // F3: daysInCycle looks at the previous month through an overflowing subMonth
  //

  /**
   * As written, for a plan billed on the 31st, `daysInCycle(2023-03-30)`
   * answers 31: `subMonth()` turns March 30 into "February 30", which
   * overflows to March 2, and March has 31 days. The previous month,
   * February 2023, has 28, so one day before the billing day is prorated
   * at 1/31 of the price rather than 1/28.
   */
  lemma DaysInCycleOverflow()
    ensures DaysInCycle(Plan(TYPE_MONTHLY, MONTHLY_PRORATE, 0, 31, 1, 0, 31.0, None), Date(2023, 3, 30)) == Some(31)
    ensures DaysInMonth(2023, 2) == 28
  {
    var current := Date(2023, 3, 30);
    ClampDayClosedForm(31, 3, 2023);
    AddMonthsShape(current, -1);
    assert SubMonth(current) == Date(2023, 3, 2);
  }

  /**
   * The intended `daysInCycle`: before the billing day, the length of the
   * calendar month before the current one.
   */
  function DaysInCycleIntended(plan: Plan, current: Date): (r: Option<int>)
    requires ValidDate(current)
    ensures r.Some? <==> plan.planType in {TYPE_DAILY, TYPE_YEARLY} || IsAnchoredMonthly(plan)
    ensures IsAnchoredMonthly(plan) && current.day < AnchorDay(plan, current) ==>
      var py, pm := PrevYear(current.year, current.month), PrevMonth(current.month);
      r == Some(DayNumber(Date(current.year, current.month, 1)) - DayNumber(Date(py, pm, 1)))
  {
    var py, pm := PrevYear(current.year, current.month), PrevMonth(current.month);
    if IsAnchoredMonthly(plan) && current.day < AnchorDay(plan, current) then
      MonthStep(py, pm);
      Some(DaysInMonth(py, pm))
    else
      DaysInCycle(plan, current)
  }

  /**
   * Wherever the current day also exists in the previous month (so that
   * `subMonth()` does not overflow), the PHP code agrees with the intended
   * count.
   */
  lemma DaysInCycleAgreesWithoutOverflow(plan: Plan, current: Date)
    requires ValidDate(current) && InCheckdateRange(current) && 1 <= plan.monthDay
    requires current.day <= DaysInMonth(PrevYear(current.year, current.month), PrevMonth(current.month))
    ensures DaysInCycle(plan, current) == DaysInCycleIntended(plan, current)
  {
    if IsAnchoredMonthly(plan) {
      DaysInCycleMonthLength(plan, current);
    }
  }
}
