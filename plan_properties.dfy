/**
 * What the billing-cycle calculator guarantees, stated over all inputs.
 *
 * Most statements assume what the plan editor and Carbon provide: a billing
 * day (`monthDay`) of at least 1, and a year inside PHP checkdate's range
 * 1..32767 with room for one more month (so years 1..32766).
 */
module PlanProperties {
  import opened Wrappers
  import opened Calendar
  import opened Plans

  function Min(a: int, b: int): int { if a < b then a else b }

  /** The calendar years in which `checkDate` can find a day above 28. */
  predicate InCheckdateRange(d: Date) {
    1 <= d.year <= 32766
  }

  //
  // checkDate
  //

  /**
   * `checkDate` in closed form: up to 28 the day itself; above 28 the day
   * clamped to the month's length, unless the month has only 28 days (or the
   * year is outside checkdate's range), in which case nothing.
   */
  lemma ClampDayClosedForm(day: int, month: int, year: int)
    ensures ClampDay(day, month, year) ==
      if day <= 28 then Some(day)
      else if 1 <= month <= 12 && 1 <= year <= 32767 && DaysInMonth(year, month) > 28 then
        Some(Min(day, DaysInMonth(year, month)))
      else None
  {
    if day > 28 && 1 <= month <= 12 && 1 <= year <= 32767 && DaysInMonth(year, month) > 28 {
      var c := Min(day, DaysInMonth(year, month));
      assert 28 < c <= day && IsCalendarDate(month, c, year);
    }
  }

  /** The billing day of a month: the plan's day, cut to the month, or 0 in a 28-day February. */
  lemma AnchorDayValues(plan: Plan, d: Date)
    requires 1 <= d.month <= 12 && 1 <= d.year <= 32767 && 1 <= plan.monthDay
    ensures AnchorDay(plan, d) == 0 <==> plan.monthDay > 28 && DaysInMonth(d.year, d.month) == 28
    ensures AnchorDay(plan, d) != 0 ==>
      AnchorDay(plan, d) == Min(plan.monthDay, DaysInMonth(d.year, d.month))
  {
    ClampDayClosedForm(plan.monthDay, d.month, d.year);
  }

  //
  // Carbon month steps as the calculator uses them
  //

  /**
   * `addMonth()` moves one or two months forward (two when the day runs past
   * the end of the next month), and lands in February only from January
   * without moving the day.
   */
  lemma AddMonthForward(d: Date)
    requires ValidDate(d)
    ensures MonthIndex(d) < MonthIndex(AddMonth(d)) <= MonthIndex(d) + 2
    ensures d.year <= AddMonth(d).year <= d.year + 1
    ensures AddMonth(d).month == 2 ==>
      d.month == 1 && AddMonth(d) == Date(d.year, 2, d.day)
    ensures AddMonth(d).year != d.year ==> d.month == 12
  {
    AddMonthsShape(d, 1);
  }

  /**
   * Setting year, then month, to those of `AddMonth(start)` never overflows,
   * so the three setters amount to one `Normalize` in the target month.
   */
  lemma MoveToNextMonth(start: Date, v: int)
    requires ValidDate(start)
    ensures MoveTo(start, AddMonth(start), v) == Normalize(AddMonth(start).year, AddMonth(start).month, v)
  {
    var next := AddMonth(start);
    AddMonthsShape(start, 1);
    AddMonthForward(start);
    var y1 := SetYear(start, next.year);
    assert y1 == Date(next.year, start.month, start.day);
    var m1 := SetMonth(y1, next.month);
    assert m1 == Date(next.year, next.month, start.day);
  }

  /** Setting year and month to their current values changes nothing. */
  lemma MoveToSameMonth(start: Date, v: int)
    requires ValidDate(start)
    ensures MoveTo(start, start, v) == Normalize(start.year, start.month, v)
  {
    NormalizeValid(start);
  }

  /**
   * From a day on or after this month's billing day, the billing day of the
   * month `addMonth()` lands in is a real day of that month.
   */
  lemma NextAnchorExists(plan: Plan, d: Date)
    requires ValidDate(d) && InCheckdateRange(d) && 1 <= plan.monthDay
    requires d.day >= AnchorDay(plan, d)
    ensures 1 <= AnchorDay(plan, AddMonth(d)) <= DaysInMonth(AddMonth(d).year, AddMonth(d).month)
  {
    var next := AddMonth(d);
    AddMonthForward(d);
    AnchorDayValues(plan, next);
    AnchorDayValues(plan, d);
  }

  //
  // getPeriodStartDate
  //

  /**
   * A `monthly_none` subscription starts on a billing day, never before the
   * reference date: this month's billing day when it is still ahead (or
   * today), otherwise the billing day of the month `addMonth()` reaches.
   */
  lemma PeriodStartOnBillingDay(plan: Plan, current: Date)
    requires ValidDate(current) && InCheckdateRange(current) && 1 <= plan.monthDay
    requires IsMonthly(plan) && plan.monthlyBehavior == MONTHLY_NONE
    ensures var r := PeriodStartDate(plan, current);
      && IsAnchorDay(plan, r)
      && DayNumber(current) <= DayNumber(r)
      && (current.day <= AnchorDay(plan, current) ==>
            r == Date(current.year, current.month, AnchorDay(plan, current)))
      && (current.day > AnchorDay(plan, current) ==>
            MonthIndex(r) == MonthIndex(AddMonth(current)))
  {
    var r := PeriodStartDate(plan, current);
    var a := AnchorDay(plan, current);
    AnchorDayValues(plan, current);
    if current.day <= a {
      assert r == Date(current.year, current.month, a);
      if current.day < a {
        DayNumberOrder(current, r);
      }
    } else {
      var next := AddMonth(current);
      NextAnchorExists(plan, current);
      AddMonthForward(current);
      assert r == Date(next.year, next.month, AnchorDay(plan, next));
      DayNumberOrder(current, r);
    }
  }

  //
  // getPeriodEndDate
  //

  /**
   * A prorated monthly period ends on a billing day after its start: this
   * month's when the start is before it, otherwise the next one's.
   */
  lemma ProratedPeriodEndsOnBillingDay(plan: Plan, start: Date)
    requires ValidDate(start) && InCheckdateRange(start) && 1 <= plan.monthDay
    requires IsMonthly(plan) && plan.monthlyBehavior == MONTHLY_PRORATE
    ensures PeriodEndDate(plan, start).Ok? && PeriodEndDate(plan, start).value.Some?
    ensures var e := PeriodEndDate(plan, start).value.value;
      && IsAnchorDay(plan, e)
      && Before(start, e)
      && (start.day < AnchorDay(plan, start) ==>
            e == Date(start.year, start.month, AnchorDay(plan, start)))
      && (start.day >= AnchorDay(plan, start) ==>
            MonthIndex(e) == MonthIndex(AddMonth(start)))
  {
    var a := AnchorDay(plan, start);
    var next := AddMonth(start);
    var e := PeriodEndDate(plan, start).value.value;
    AnchorDayValues(plan, start);
    if start.day < a {
      MoveToSameMonth(start, a);
      assert e == Date(start.year, start.month, a);
    } else {
      MoveToNextMonth(start, AnchorDay(plan, next));
      NextAnchorExists(plan, start);
      AddMonthForward(start);
      assert e == Date(next.year, next.month, AnchorDay(plan, next));
    }
  }

  /**
   * A `monthly_free` or `monthly_none` period ends on the billing day of the
   * month `addMonth()` reaches, except when that month is a 28-day February
   * and the billing day is above 28: `checkDate` then yields `null`, the day
   * is set to 0 and the period ends on the last day of the start's month.
   */
  lemma FreeOrNonePeriodEnd(plan: Plan, start: Date)
    requires ValidDate(start) && InCheckdateRange(start) && 1 <= plan.monthDay
    requires IsMonthly(plan) && plan.monthlyBehavior in {MONTHLY_FREE, MONTHLY_NONE}
    ensures PeriodEndDate(plan, start).Ok? && PeriodEndDate(plan, start).value.Some?
    ensures var e := PeriodEndDate(plan, start).value.value;
      var next := AddMonth(start);
      && Before(start, e)
      && (AnchorDay(plan, next) != 0 ==>
            IsAnchorDay(plan, e) && MonthIndex(e) == MonthIndex(next))
      && (AnchorDay(plan, next) == 0 ==>
            e == Date(start.year, start.month, DaysInMonth(start.year, start.month)))
  {
    var next := AddMonth(start);
    var e := PeriodEndDate(plan, start).value.value;
    MoveToNextMonth(start, AnchorDay(plan, next));
    AddMonthForward(start);
    AnchorDayValues(plan, next);
    if AnchorDay(plan, next) == 0 {
      var n := Normalize(start.year, 1, 31);
      assert n == Date(start.year, 1, 31);
      assert e == Date(start.year, 1, 31);
    } else {
      assert e == Date(next.year, next.month, AnchorDay(plan, next));
    }
  }

  /**
   * A `monthly_signup` period ends in the month `addMonth()` reaches, on the
   * start's day cut to that month's length, after the start.
   */
  lemma SignupPeriodEnd(plan: Plan, start: Date)
    requires ValidDate(start) && InCheckdateRange(start)
    requires IsMonthly(plan) && plan.monthlyBehavior == MONTHLY_SIGNUP
    ensures PeriodEndDate(plan, start).Ok? && PeriodEndDate(plan, start).value.Some?
    ensures var e := PeriodEndDate(plan, start).value.value;
      && MonthIndex(e) == MonthIndex(AddMonth(start))
      && e.day == Min(start.day, DaysInMonth(e.year, e.month))
      && Before(start, e)
  {
    var next := AddMonth(start);
    var e := PeriodEndDate(plan, start).value.value;
    MoveToNextMonth(start, DayOrZero(ClampDay(start.day, next.month, next.year)));
    AddMonthForward(start);
    AddMonthsShape(start, 1);
    ClampDayClosedForm(start.day, next.month, next.year);
    assert e == Date(next.year, next.month, Min(start.day, DaysInMonth(next.year, next.month)));
  }

  /**
   * The non-monthly cadences: a daily period lasts `dayInterval` days, a
   * yearly one moves the year by `yearInterval` (Feb 29 becoming Mar 1 in a
   * year without it), a lifetime period has no end, and an unknown type is
   * a configuration error.
   */
  lemma OtherCadencesEnd(plan: Plan, start: Date)
    requires ValidDate(start)
    ensures plan.planType == TYPE_DAILY ==>
      && PeriodEndDate(plan, start).Ok? && PeriodEndDate(plan, start).value.Some?
      && DayNumber(PeriodEndDate(plan, start).value.value) == DayNumber(start) + plan.dayInterval
    ensures plan.planType == TYPE_YEARLY ==>
      PeriodEndDate(plan, start) == Ok(Some(AddYears(start, plan.yearInterval)))
    ensures plan.planType == TYPE_LIFETIME ==> PeriodEndDate(plan, start) == Ok(None)
    ensures plan.planType !in {TYPE_DAILY, TYPE_MONTHLY, TYPE_YEARLY, TYPE_LIFETIME} ==>
      PeriodEndDate(plan, start) == Err(UnknownPlanType(plan.planType))
  {
  }

  //
  // daysUntilBilling and daysInCycle
  //

  /**
   * For an anchored monthly plan, `daysUntilBilling` counts the days to a
   * billing day: 0 exactly on one, the distance to this month's when it is
   * still ahead, otherwise the distance to the billing day of the month
   * `addMonth()` reaches.
   */
  lemma DaysUntilBillingReachesBillingDay(plan: Plan, current: Date)
    requires ValidDate(current) && InCheckdateRange(current) && 1 <= plan.monthDay
    requires IsAnchoredMonthly(plan)
    ensures DaysUntilBilling(plan, current).Some?
    ensures var n := DaysUntilBilling(plan, current).value;
      && IsAnchorDay(plan, AddDays(current, n))
      && (n == 0 <==> IsAnchorDay(plan, current))
      && (current.day < AnchorDay(plan, current) ==> n == AnchorDay(plan, current) - current.day)
      && (current.day > AnchorDay(plan, current) ==>
            MonthIndex(AddDays(current, n)) == MonthIndex(AddMonth(current)))
  {
    var n := DaysUntilBilling(plan, current).value;
    var a := AnchorDay(plan, current);
    AnchorDayValues(plan, current);
    if current.day < a {
      var t := AddDays(current, n);
      assert t == Date(current.year, current.month, a);
    } else if current.day > a {
      var next := AddMonth(current);
      NextAnchorExists(plan, current);
      AddMonthForward(current);
      var target := SetDay(next, AnchorDay(plan, next));
      assert target == Date(next.year, next.month, AnchorDay(plan, next));
      DayNumberOrder(current, target);
      assert n == DayNumber(target) - DayNumber(current);
      DayNumberInjective(AddDays(current, n), target);
    }
  }

  /**
   * `daysInCycle` of an anchored monthly plan is 0 on exactly the days where
   * `daysUntilBilling` is 0; before the billing day it is the length of the
   * month `subMonth()` reaches (the previous month whenever the day exists
   * there), after it the length of the current month.
   */
  lemma DaysInCycleMonthLength(plan: Plan, current: Date)
    requires ValidDate(current) && InCheckdateRange(current) && 1 <= plan.monthDay
    requires IsAnchoredMonthly(plan)
    ensures DaysInCycle(plan, current) == Some(0) <==> DaysUntilBilling(plan, current) == Some(0)
    ensures var py, pm := PrevYear(current.year, current.month), PrevMonth(current.month);
      current.day < AnchorDay(plan, current) && current.day <= DaysInMonth(py, pm) ==>
        DaysInCycle(plan, current) == Some(DaysInMonth(py, pm))
    ensures current.day > AnchorDay(plan, current) ==>
      DaysInCycle(plan, current) == Some(DaysInMonth(current.year, current.month))
  {
    DaysUntilBillingReachesBillingDay(plan, current);
    var py, pm := PrevYear(current.year, current.month), PrevMonth(current.month);
    if current.day < AnchorDay(plan, current) && current.day <= DaysInMonth(py, pm) {
      AddMonthsShape(current, -1);
      assert SubMonth(current) == Date(py, pm, current.day);
    }
  }

  //
  // adjustPrice
  //

  /** A whole number of cents. */
  predicate IsWholeCents(x: real) {
    (x * 100.0).Floor as real == x * 100.0
  }

  /** Rounding to two decimals leaves a whole number of cents alone. */
  lemma RoundTo2KeepsCents(x: real)
    requires IsWholeCents(x)
    ensures RoundTo2(x) == x
  {
    var n := (x * 100.0).Floor;
    if x >= 0.0 {
      assert x * 100.0 + 0.5 == n as real + 0.5;
      assert (n as real + 0.5).Floor == n;
      assert (n as real) / 100.0 == x;
    } else {
      assert (-x) * 100.0 + 0.5 == (-n) as real + 0.5;
      assert ((-n) as real + 0.5).Floor == -n;
      assert ((-n) as real) / 100.0 == -x;
    }
  }

  /** Rounding to two decimals is monotone. */
  lemma RoundTo2Monotone(x: real, y: real)
    requires x <= y
    ensures RoundTo2(x) <= RoundTo2(y)
  {
    if x >= 0.0 {
      assert (x * 100.0 + 0.5).Floor <= (y * 100.0 + 0.5).Floor;
    } else if y < 0.0 {
      assert ((-y) * 100.0 + 0.5).Floor <= ((-x) * 100.0 + 0.5).Floor;
    }
  }

  /** Prorating over a whole cycle charges the whole (cent-exact) price. */
  lemma ProrateWholeCycle(price: real, days: int)
    requires days > 0 && IsWholeCents(price)
    ensures Prorate(price, days, days) == price
  {
    assert ProratedAmount(price, days, days) == price;
    RoundTo2KeepsCents(price);
  }

  /** More billable days never cost less. */
  lemma ProrateMonotone(price: real, fewer: int, more: int, totalDays: int)
    requires price >= 0.0 && totalDays > 0 && fewer <= more
    ensures Prorate(price, fewer, totalDays) <= Prorate(price, more, totalDays)
  {
    ProratedAmountMonotone(price, fewer, more, totalDays);
    RoundTo2Monotone(ProratedAmount(price, fewer, totalDays), ProratedAmount(price, more, totalDays));
  }

  lemma ProratedAmountMonotone(price: real, fewer: int, more: int, totalDays: int)
    requires price >= 0.0 && totalDays > 0 && fewer <= more
    ensures ProratedAmount(price, fewer, totalDays) <= ProratedAmount(price, more, totalDays)
  {
    var rate := price / totalDays as real;
    assert rate >= 0.0;
    assert more as real * rate - fewer as real * rate == (more - fewer) as real * rate;
  }

  /**
   * A prorated plan charges the prorated price exactly when both day counts
   * are positive, and the full price on a billing day.
   */
  lemma AdjustPriceProrates(plan: Plan, price: real, current: Date)
    requires ValidDate(current) && IsMonthly(plan) && plan.monthlyBehavior == MONTHLY_PRORATE
    ensures var b, t := DaysUntilBilling(plan, current).value, DaysInCycle(plan, current).value;
      AdjustPrice(plan, price, current) == if b > 0 && t > 0 then Prorate(price, b, t) else price
    ensures IsAnchorDay(plan, current) ==> AdjustPrice(plan, price, current) == price
  {
  }

  /** A free plan stays free after proration. */
  lemma FreePlanProratesToZero(plan: Plan, current: Date)
    requires ValidDate(current) && IsFree(plan)
    ensures AdjustPrice(plan, plan.price, current) == 0.0
  {
    var b, t := DaysUntilBilling(plan, current), DaysInCycle(plan, current);
    if IsMonthly(plan) && plan.monthlyBehavior == MONTHLY_PRORATE && b.value > 0 && t.value > 0 {
      assert b.value as real * (0.0 / t.value as real) == 0.0;
    }
  }

  //
  // Policy helpers
  //

  /**
   * A plan renews exactly when its periods have an end; switching to a plan
   * is an upgrade, a downgrade or neither, never both, and costs something
   * only on an upgrade; prorated monthly plans are trial-inclusive whatever
   * the global setting says.
   */
  lemma PolicyHelpers(plan: Plan, start: Date, servicePrice: real, setting: bool)
    requires ValidDate(start)
    ensures IsRenewable(plan) <==> PeriodEndDate(plan, start) != Ok(None)
    ensures !(IsUpgrade(plan, servicePrice) && IsDowngrade(plan, servicePrice))
    ensures IsDowngrade(plan, servicePrice) ==> SwitchPrice(plan, servicePrice) == 0.0
    ensures IsUpgrade(plan, servicePrice) ==> SwitchPrice(plan, servicePrice) == plan.price - servicePrice
    ensures IsMonthly(plan) && plan.monthlyBehavior == MONTHLY_PRORATE ==> IsTrialInclusive(plan, setting)
    ensures !(IsMonthly(plan) && plan.monthlyBehavior == MONTHLY_PRORATE) ==> (IsTrialInclusive(plan, setting) <==> setting)
  {
  }

  /**
   * An unknown plan type is an error for the period end, has no day counts,
   * keeps the reference date as the period start and leaves the price alone.
   * An unknown monthly behaviour is an error for the period end, yet is
   * counted like a plan billed on a fixed day.
   */
  lemma UnknownValues(plan: Plan, current: Date, price: real)
    requires ValidDate(current)
    ensures plan.planType !in {TYPE_DAILY, TYPE_MONTHLY, TYPE_YEARLY, TYPE_LIFETIME} ==>
      && PeriodEndDate(plan, current).Err?
      && DaysUntilBilling(plan, current).None? && DaysInCycle(plan, current).None?
      && PeriodStartDate(plan, current) == current && AdjustPrice(plan, price, current) == price
    ensures IsMonthly(plan) && plan.monthlyBehavior !in {MONTHLY_SIGNUP, MONTHLY_PRORATE, MONTHLY_FREE, MONTHLY_NONE} ==>
      && PeriodEndDate(plan, current).Err?
      && IsAnchoredMonthly(plan)
      && DaysUntilBilling(plan, current).Some? && DaysInCycle(plan, current).Some?
      && AdjustPrice(plan, price, current) == price
  {
  }

  //
  // Worked examples
  //

  /**
   * A weekly daily-cadence plan from 2024-01-01 ends on 2024-01-08; a
   * prorated plan billed on the 31st, seen on 2024-02-15, bills on Feb 29
   * (a leap year), 14 days ahead, in a cycle as long as January.
   */
  lemma WorkedExamples()
    ensures PeriodEndDate(Plan(TYPE_DAILY, MONTHLY_SIGNUP, 7, 1, 1, 0, 10.0, None), Date(2024, 1, 1))
      == Ok(Some(Date(2024, 1, 8)))
    ensures var plan := Plan(TYPE_MONTHLY, MONTHLY_PRORATE, 0, 31, 1, 0, 10.0, None);
      && AnchorDay(plan, Date(2024, 2, 15)) == 29
      && PeriodEndDate(plan, Date(2024, 2, 15)) == Ok(Some(Date(2024, 2, 29)))
      && DaysUntilBilling(plan, Date(2024, 2, 15)) == Some(14)
      && DaysInCycle(plan, Date(2024, 2, 15)) == Some(31)
  {
    var plan := Plan(TYPE_MONTHLY, MONTHLY_PRORATE, 0, 31, 1, 0, 10.0, None);
    var current := Date(2024, 2, 15);
    ClampDayClosedForm(31, 2, 2024);
    assert Normalize(2024, 1, 8) == Date(2024, 1, 8);
    MoveToSameMonth(current, 29);
    assert Normalize(2024, 2, 29) == Date(2024, 2, 29);
    AddMonthsShape(current, -1);
    assert SubMonth(current) == Date(2024, 1, 15);
  }
}
