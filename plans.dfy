/**
 * The billing-cycle calculator of a subscription plan: where a period starts
 * and ends, how many days remain until the next billing day, how many days a
 * cycle has, and how a price is prorated; plus the plan's small price and
 * policy helpers.
 *
 * Plan types and monthly behaviours stay the strings the plan record stores,
 * so an unrecognised value takes the same branch it takes in the PHP code.
 * An unknown plan type gets an error from `PeriodEndDate`, no day count from
 * `DaysUntilBilling` and `DaysInCycle`, the reference date back from
 * `PeriodStartDate` and the price unchanged from `AdjustPrice`. An unknown
 * monthly behaviour gets an error from `PeriodEndDate`, but `DaysUntilBilling`
 * and `DaysInCycle` count days for it as for a plan billed on a fixed day
 * (`IsAnchoredMonthly`). Reference dates are always passed in; global
 * settings are parameters.
 */
module Plans {
  import opened Wrappers
  import opened Calendar

  const TYPE_DAILY := "daily"
  const TYPE_MONTHLY := "monthly"
  const TYPE_YEARLY := "yearly"
  const TYPE_LIFETIME := "lifetime"

  const MONTHLY_SIGNUP := "monthly_signup"
  const MONTHLY_PRORATE := "monthly_prorate"
  const MONTHLY_FREE := "monthly_free"
  const MONTHLY_NONE := "monthly_none"

  /** The columns of a plan record that the calculator reads. */
  datatype Plan = Plan(
    planType: string,
    monthlyBehavior: string,
    dayInterval: int,
    monthDay: int,
    monthInterval: int,  // stored with the plan; no calculation reads it
    yearInterval: int,
    price: real,
    setupPrice: Option<real>)

  /** The configuration errors `getPeriodEndDate` throws. */
  datatype PlanError =
    | UnknownMonthlyBehavior(behavior: string)
    | UnknownPlanType(planType: string)

  predicate IsMonthly(plan: Plan) { plan.planType == TYPE_MONTHLY }

  /** A monthly plan whose cycle is tied to a fixed day of the month. */
  predicate IsAnchoredMonthly(plan: Plan) {
    plan.planType == TYPE_MONTHLY && plan.monthlyBehavior != MONTHLY_SIGNUP
  }

  //
  // checkDate
  //

  /**
   * The loop of `checkDate`: counting down from `checkDay` while it is above
   * 28, the first day that PHP's checkdate accepts in that month, if any.
   */
  function FirstValidDayDown(checkDay: int, month: int, year: int): (r: Option<int>)
    ensures r.Some? ==> 28 < r.value <= checkDay && IsCalendarDate(month, r.value, year)
    ensures r.Some? ==> forall k :: r.value < k <= checkDay ==> !IsCalendarDate(month, k, year)
    ensures r.None? ==> forall k :: 28 < k <= checkDay ==> !IsCalendarDate(month, k, year)
    decreases checkDay
  {
    if checkDay <= 28 then None
    else if IsCalendarDate(month, checkDay, year) then Some(checkDay)
    else FirstValidDayDown(checkDay - 1, month, year)
  }

  /**
   * What `checkDate(day, month, year)` returns: `day` itself up to 28,
   * otherwise the largest day in 29..day that exists in that month, or
   * nothing (PHP `null`) when there is none, as in a February of 28 days.
   */
  function ClampDay(day: int, month: int, year: int): (r: Option<int>)
    ensures day <= 28 ==> r == Some(day)
    ensures day > 28 && r.Some? ==>
      && 28 < r.value <= day && IsCalendarDate(month, r.value, year)
      && forall k :: r.value < k <= day ==> !IsCalendarDate(month, k, year)
    ensures day > 28 && r.None? ==> forall k :: 28 < k <= day ==> !IsCalendarDate(month, k, year)
  {
    if day <= 28 then Some(day) else FirstValidDayDown(day, month, year)
  }

  /** `checkDate` as the PHP code runs it: a count-down loop. */
  method CheckDate(day: int, month: int, year: int) returns (r: Option<int>)
    ensures r == ClampDay(day, month, year)
  {
    if day <= 28 {
      return Some(day);
    }
    var checkDay := day;
    while checkDay > 28
      invariant FirstValidDayDown(checkDay, month, year) == FirstValidDayDown(day, month, year)
      decreases checkDay
    {
      if IsCalendarDate(month, checkDay, year) {
        return Some(checkDay);
      }
      checkDay := checkDay - 1;
    }
    return None;
  }

  /**
   * PHP's `(int)` of a `checkDate` result: `null` becomes 0. A `null` day
   * also compares like 0 against a day of the month, and assigning it as a
   * Carbon day sets day 0, so callers that use the value directly see 0 too.
   */
  function DayOrZero(d: Option<int>): int {
    d.GetOr(0)
  }

  /** The plan's billing day in the month of `d`, as the calculator computes it. */
  function AnchorDay(plan: Plan, d: Date): int {
    DayOrZero(ClampDay(plan.monthDay, d.month, d.year))
  }

  /** `d` is the plan's billing day of its month. */
  predicate IsAnchorDay(plan: Plan, d: Date) {
    d.day == AnchorDay(plan, d)
  }

  //
  // Period dates
  //

  /**
   * The three successive setters `$r->year = t->year; $r->month = t->month;
   * $r->day = v`, each of which lets an impossible day overflow.
   */
  function MoveTo(d: Date, target: Date, v: int): (r: Date)
    requires ValidDate(d) && ValidDate(target)
    ensures ValidDate(r)
  {
    SetDay(SetMonth(SetYear(d, target.year), target.month), v)
  }

  /** `getPeriodStartDate(current)`. */
  function PeriodStartDate(plan: Plan, current: Date): (r: Date)
    requires ValidDate(current)
    ensures ValidDate(r)
    ensures !(IsMonthly(plan) && plan.monthlyBehavior == MONTHLY_NONE) ==> r == current
  {
    if IsMonthly(plan) && plan.monthlyBehavior == MONTHLY_NONE then
      var checkEndDay := AnchorDay(plan, current);
      if current.day <= checkEndDay then
        SetDay(current, checkEndDay)
      else
        var next := AddMonth(current);
        SetDay(next, AnchorDay(plan, next))
    else
      current
  }

  /**
   * `getPeriodEndDate(start)`: `Ok(None)` is the lifetime plan's `null`, an
   * `Err` the exception thrown for an unknown plan type or monthly behaviour.
   */
  function PeriodEndDate(plan: Plan, start: Date): (r: Result<Option<Date>, PlanError>)
    requires ValidDate(start)
    ensures r.Ok? && r.value.Some? ==> ValidDate(r.value.value)
    ensures r == Ok(None) <==> plan.planType == TYPE_LIFETIME
    ensures r.Err? <==>
      || plan.planType !in {TYPE_DAILY, TYPE_MONTHLY, TYPE_YEARLY, TYPE_LIFETIME}
      || (IsMonthly(plan) && plan.monthlyBehavior !in {MONTHLY_SIGNUP, MONTHLY_PRORATE, MONTHLY_FREE, MONTHLY_NONE})
  {
    if plan.planType == TYPE_DAILY then
      Ok(Some(AddDays(start, plan.dayInterval)))
    else if plan.planType == TYPE_MONTHLY then
      var next := AddMonth(start);
      if plan.monthlyBehavior == MONTHLY_SIGNUP then
        Ok(Some(MoveTo(start, next, DayOrZero(ClampDay(start.day, next.month, next.year)))))
      else if plan.monthlyBehavior == MONTHLY_PRORATE then
        var checkEndDay := AnchorDay(plan, start);
        if start.day == checkEndDay then
          Ok(Some(MoveTo(start, next, AnchorDay(plan, next))))
        else if start.day < checkEndDay then
          Ok(Some(MoveTo(start, start, checkEndDay)))
        else
          Ok(Some(MoveTo(start, next, AnchorDay(plan, next))))
      else if plan.monthlyBehavior == MONTHLY_FREE || plan.monthlyBehavior == MONTHLY_NONE then
        Ok(Some(MoveTo(start, next, AnchorDay(plan, next))))
      else
        Err(UnknownMonthlyBehavior(plan.monthlyBehavior))
    else if plan.planType == TYPE_YEARLY then
      Ok(Some(AddYears(start, plan.yearInterval)))
    else if plan.planType == TYPE_LIFETIME then
      Ok(None)
    else
      Err(UnknownPlanType(plan.planType))
  }

  //
  // Day counts and proration
  //

  /** `daysUntilBilling(current)`; `None` is the PHP `null`. */
  function DaysUntilBilling(plan: Plan, current: Date): (r: Option<int>)
    requires ValidDate(current)
    ensures r.Some? <==> IsAnchoredMonthly(plan)
    ensures r.Some? ==> r.value >= 0
    ensures IsAnchorDay(plan, current) && IsAnchoredMonthly(plan) ==> r == Some(0)
  {
    if plan.planType == TYPE_LIFETIME then
      None
    else if IsAnchoredMonthly(plan) then
      var endDay := AnchorDay(plan, current);
      if current.day == endDay then
        Some(0)
      else if current.day < endDay then
        Some(endDay - current.day)
      else
        var next := AddMonth(current);
        Some(DiffInDays(SetDay(next, AnchorDay(plan, next)), current))
    else
      None
  }

  /**
   * `daysInCycle(current)`; `None` is the PHP `null`. For a yearly
   * plan the PHP code answers with the number of years in the cycle.
   */
  function DaysInCycle(plan: Plan, current: Date): (r: Option<int>)
    requires ValidDate(current)
    ensures r.Some? <==> plan.planType in {TYPE_DAILY, TYPE_YEARLY} || IsAnchoredMonthly(plan)
    ensures plan.planType == TYPE_DAILY ==> r == Some(plan.dayInterval)
    ensures plan.planType == TYPE_YEARLY ==> r == Some(plan.yearInterval)
    ensures IsAnchoredMonthly(plan) ==> (r == Some(0) <==> IsAnchorDay(plan, current))
    ensures IsAnchoredMonthly(plan) && !IsAnchorDay(plan, current) ==> 28 <= r.value <= 31
  {
    if plan.planType == TYPE_LIFETIME then
      None
    else if plan.planType == TYPE_DAILY then
      Some(plan.dayInterval)
    else if plan.planType == TYPE_YEARLY then
      Some(plan.yearInterval)
    else if IsAnchoredMonthly(plan) then
      var endDay := AnchorDay(plan, current);
      if current.day == endDay then
        Some(0)
      else if current.day < endDay then
        Some(DaysInMonthOf(SubMonth(current)))
      else
        Some(DaysInMonthOf(current))
    else
      None
  }

  /**
   * The caller's date after `daysInCycle(current)` returns: the PHP code
   * moves it back a month (`subMonth()` on the argument itself) when the
   * date lies before the billing day of an anchored monthly plan.
   */
  function DateAfterDaysInCycle(plan: Plan, current: Date): (r: Date)
    requires ValidDate(current)
    ensures ValidDate(r)
    ensures r != current <==> IsAnchoredMonthly(plan) && current.day < AnchorDay(plan, current)
    ensures r != current ==> r == SubMonth(current)
    ensures IsAnchoredMonthly(plan) && !IsAnchorDay(plan, current) ==> DaysInCycle(plan, current) == Some(DaysInMonthOf(r))
  {
    if IsAnchoredMonthly(plan) && current.day < AnchorDay(plan, current) then
      SubMonth(current)
    else
      current
  }

  /** PHP `round(x, 2)`: to two decimals, halves away from zero. */
  function RoundTo2(x: real): (r: real)
    ensures (r * 100.0).Floor as real == r * 100.0
    ensures x - 0.005 <= r <= x + 0.005
    ensures x >= 0.0 ==> x - 0.005 < r
    ensures x < 0.0 ==> r < x + 0.005
    ensures x >= 0.0 ==> r >= 0.0
  {
    if x >= 0.0 then
      var n := (x * 100.0 + 0.5).Floor;
      assert n as real <= x * 100.0 + 0.5 < n as real + 1.0;
      assert (n as real / 100.0) * 100.0 == n as real && (n as real).Floor == n;
      n as real / 100.0
    else
      var n := ((-x) * 100.0 + 0.5).Floor;
      assert n as real <= (-x) * 100.0 + 0.5 < n as real + 1.0;
      assert -(n as real / 100.0) * 100.0 == (-n) as real && ((-n) as real).Floor == -n;
      -(n as real / 100.0)
  }

  /** The unrounded prorated amount: `billableDays * (price / totalDays)`. */
  function ProratedAmount(price: real, billableDays: int, totalDays: int): real
    requires totalDays > 0
  {
    billableDays as real * (price / totalDays as real)
  }

  /** The proration formula: `round(billableDays * (price / totalDays), 2)`. */
  function Prorate(price: real, billableDays: int, totalDays: int): (r: real)
    requires totalDays > 0
    ensures (r * 100.0).Floor as real == r * 100.0
    ensures ProratedAmount(price, billableDays, totalDays) - 0.005 <= r <= ProratedAmount(price, billableDays, totalDays) + 0.005
    ensures ProratedAmount(price, billableDays, totalDays) >= 0.0 ==> ProratedAmount(price, billableDays, totalDays) - 0.005 < r
    ensures ProratedAmount(price, billableDays, totalDays) < 0.0 ==> r < ProratedAmount(price, billableDays, totalDays) + 0.005
    ensures price >= 0.0 && billableDays >= 0 ==> r >= 0.0
  {
    RoundTo2(ProratedAmount(price, billableDays, totalDays))
  }

  /** `adjustPrice(originalPrice, current)`. */
  function AdjustPrice(plan: Plan, originalPrice: real, current: Date): (r: real)
    requires ValidDate(current)
    ensures !(IsMonthly(plan) && plan.monthlyBehavior == MONTHLY_PRORATE) ==> r == originalPrice
  {
    if plan.planType != TYPE_MONTHLY then
      originalPrice
    else if plan.monthlyBehavior != MONTHLY_PRORATE then
      originalPrice
    else
      var billableDays := DaysUntilBilling(plan, current);
      if billableDays.None? || billableDays.value <= 0 then
        originalPrice
      else
        var totalDays := DaysInCycle(plan, current);
        if totalDays.None? || totalDays.value <= 0 then
          originalPrice
        else
          Prorate(originalPrice, billableDays.value, totalDays.value)
  }

  /**
   * The caller's date after `adjustPrice(price, current)` returns: it is
   * handed on to `daysInCycle` whenever a prorated plan has days left to
   * bill, and so moves back a month before the billing day.
   */
  function DateAfterAdjustPrice(plan: Plan, current: Date): (r: Date)
    requires ValidDate(current)
    ensures ValidDate(r)
    ensures r != current <==>
      IsMonthly(plan) && plan.monthlyBehavior == MONTHLY_PRORATE && current.day < AnchorDay(plan, current)
    ensures r != current ==> r == SubMonth(current)
  {
    if plan.planType != TYPE_MONTHLY || plan.monthlyBehavior != MONTHLY_PRORATE then
      current
    else
      var billableDays := DaysUntilBilling(plan, current);
      if billableDays.None? || billableDays.value <= 0 then current
      else DateAfterDaysInCycle(plan, current)
  }

  //
  // Price and policy helpers
  //

  /** `isRenewable()`. */
  predicate IsRenewable(plan: Plan)
    ensures forall start :: ValidDate(start) ==> (IsRenewable(plan) <==> PeriodEndDate(plan, start) != Ok(None))
  {
    plan.planType != TYPE_LIFETIME
  }

  /**
   * `isTrialInclusive()`: prorated monthly plans always are; any other plan
   * follows the global `is_trial_inclusive` setting.
   */
  predicate IsTrialInclusive(plan: Plan, trialInclusiveSetting: bool)
    ensures trialInclusiveSetting ==> IsTrialInclusive(plan, trialInclusiveSetting)
    ensures !IsTrialInclusive(plan, trialInclusiveSetting) ==> plan.monthlyBehavior != MONTHLY_PRORATE || !IsMonthly(plan)
  {
    if IsMonthly(plan) && plan.monthlyBehavior == MONTHLY_PRORATE then true
    else trialInclusiveSetting
  }

  /** `isFree()`. */
  predicate IsFree(plan: Plan)
    ensures IsFree(plan) ==> Total(plan) == plan.setupPrice.GetOr(0.0)
  {
    plan.price == 0.0
  }

  /** `isUpgrade(service)`: this plan costs more than the service does now. */
  predicate IsUpgrade(plan: Plan, servicePrice: real)
    ensures IsFree(plan) && servicePrice >= 0.0 ==> !IsUpgrade(plan, servicePrice)
  {
    plan.price > servicePrice
  }

  /** `isDowngrade(service)`: the service costs more than this plan. */
  predicate IsDowngrade(plan: Plan, servicePrice: real)
    ensures IsDowngrade(plan, servicePrice) ==> !IsUpgrade(plan, servicePrice)
    ensures !IsDowngrade(plan, servicePrice) && !IsUpgrade(plan, servicePrice) ==> plan.price == servicePrice
  {
    servicePrice > plan.price
  }

  /** `getSwitchPrice(service)`: `max(plan price - service price, 0)`. */
  function SwitchPrice(plan: Plan, servicePrice: real): (r: real)
    ensures r >= 0.0
    ensures r > 0.0 <==> IsUpgrade(plan, servicePrice)
    ensures r >= plan.price - servicePrice
  {
    if plan.price - servicePrice > 0.0 then plan.price - servicePrice else 0.0
  }

  /** `getTotalAttribute()`: the price plus the setup price, a missing one counting as 0. */
  function Total(plan: Plan): (r: real)
    ensures plan.setupPrice.None? ==> r == plan.price
    ensures plan.setupPrice.Some? ==> r == plan.price + plan.setupPrice.value
    ensures plan.setupPrice.Some? && plan.setupPrice.value >= 0.0 ==> r >= plan.price
  {
    plan.price + plan.setupPrice.GetOr(0.0)
  }
}
