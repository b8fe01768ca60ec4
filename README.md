# Subscription billing core, modelled in Dafny

This project models the two parts of the subscription plugin that hold its
logic:

- **The billing-cycle calculator of a plan** (`models/Plan.php`). Given a
  plan's cadence and a reference date, it works out:
  - where a subscription period starts and where it ends;
  - how many days remain until the next billing day;
  - how many days the current cycle has;
  - what a prorated price comes to.

  A plan is daily, monthly, yearly or lifetime. A monthly plan renews in
  one of four ways: on the signup day, on a fixed billing day with proration,
  on a fixed billing day with a free first stretch, or on a fixed billing day
  with a start postponed to that day. The calculator's small price and
  policy helpers are modelled as well: switch price, upgrade and downgrade,
  renewable, trial-inclusive, free, and total.
- **The renewal state machine** (`classes/SubscriptionEngine.php`). It
  reacts to a paid invoice according to the service's status code, and it
  renews a service at the end of its period. It raises a renewal invoice,
  tries to pay it, and on failure asks for the grace period or for past due.
  The engine only *asks* the service and invoice managers to act. The model
  records each request in a trace, and the managers' answers come in as
  parameters.

Files:

- `wrappers.dfy`: `Option` and `Result`.
- `calendar.dfy`: dates and PHP's `checkdate`. It also holds the Carbon
  operations the calculator uses, with Carbon's day overflow (Jan 31 plus one
  month is early March, day 0 is the previous month's last day). Day numbers
  give dates a linear order.
- `plans.dfy`: the calculator, one function per method of the plan. The
  count-down loop of `checkDate` is also modelled as a method.
- `plan_properties.dfy`: what the calculator guarantees, as lemmas over all
  inputs.
- `engine.dfy`: the engine as a class with its clock, its managers' clocks
  and its request trace. A service is a class whose fields the engine writes.
- `engine_properties.dfy`: how many requests of each kind a payment or a
  renewal makes, and what decides between them.
- `findings.dfy`: three places where the code departs from its evident
  intent. Each has a counterexample and a corrected definition.

A plan's type and its monthly behaviour stay the strings the plan record
stores, so an unknown value takes the same branch it takes in PHP:

- an unknown plan type gets an error from `PeriodEndDate`, no day count
  from `DaysUntilBilling` and `DaysInCycle`, the reference date back from
  `PeriodStartDate`, and the price unchanged from `AdjustPrice`;
- an unknown monthly behaviour gets an error from `PeriodEndDate`, but
  `DaysUntilBilling` and `DaysInCycle` count days for it as they do for a
  plan billed on a fixed day (`IsAnchoredMonthly`).

When `checkDate` finds
no day it returns PHP `null`, modelled as `None`. Every caller then behaves
as if it were 0 (`DayOrZero`):

- `(int)` casts it to 0;
- a loose comparison of a day with `null` comes out as it would against 0;
- assigning it as a Carbon day sets day 0.

## Model

| member | source | states |
|---|---|---|
| Calendar.AddDays | models/Plan.php:425 | `addDays(n)` gives a real date exactly `n` day numbers after the start |
| Calendar.AddMonth | models/Plan.php:430 | `addMonth()` with Carbon's overflow always yields a real date |
| Calendar.SubMonth | models/Plan.php:648 | `subMonth()` with Carbon's overflow always yields a real date, and always a different one |
| Calendar.AddMonthsShape | models/Plan.php:430 | moving by months keeps the day when the target month has it; otherwise it lands in the following month on the surplus day, and that month has 31 days |
| Calendar.AddYears | models/Plan.php:471 | `addYears(k)` keeps month and day, except that Feb 29 in a year without one becomes Mar 1 |
| Calendar.SetDay | models/Plan.php:399 | assigning a day the month has puts the date on that day of the same month; any other value still yields a real date |
| Calendar.SetYear | models/Plan.php:433 | assigning a year yields a real date |
| Calendar.SetMonth | models/Plan.php:434 | assigning a month yields a real date |
| Calendar.DaysInMonthOf | models/Plan.php:651 | `daysInMonth` is between 28 and 31 |
| Calendar.DiffInDays | models/Plan.php:591 | `diffInDays` is never negative and 0 exactly for the same date; adding it to the earlier date gives the later one |
| Calendar.Normalize | models/Plan.php:399 | Carbon's `setDate` carry of a day outside the month (0, negative, or past its end) into the neighbouring months always gives a real date; `NormalizeSerial` shows it keeps the day number |
| Calendar.NormalizeSerial | models/Plan.php:399 | an overflowing day assignment keeps the day number: the carry only renames the day |
| Calendar.DayNumberOrder | models/Plan.php:591 | calendar order and day-number order agree, so day differences count forward |
| Plans.FirstValidDayDown | models/Plan.php:497-501 | the count-down finds the largest day in 29..day that `checkdate` accepts, with no valid day above it; when it finds none, no day in 29..day is valid |
| Plans.ClampDay | models/Plan.php:489-502 | a day up to 28 comes back unchanged; a larger one comes back as the largest valid day of the month not above it, or as nothing when there is none |
| Plans.CheckDate | models/Plan.php:489-502 | the loop returns exactly what `ClampDay` describes |
| Plans.MoveTo | models/Plan.php:433-435 | the three successive setters always give a real date |
| Plans.PeriodStartDate | models/Plan.php:382-409 | the start is the reference date itself for every plan except monthly `monthly_none`, and always a real date |
| Plans.PeriodEndDate | models/Plan.php:414-484 | no end (`null`) exactly for lifetime plans; an error exactly for an unknown type or an unknown monthly behaviour; otherwise a real date |
| Plans.DaysUntilBilling | models/Plan.php:543-596 | a value exactly for monthly plans other than `monthly_signup`; never negative; 0 on the billing day |
| Plans.DaysInCycle | models/Plan.php:606-656 | a value exactly for daily, yearly and anchored monthly plans: `dayInterval` for daily, `yearInterval` (years) for yearly; 0 exactly on the billing day, otherwise 28 to 31 |
| Plans.DateAfterDaysInCycle | models/Plan.php:646-649 | the caller's date changes exactly when an anchored monthly plan is before its billing day, and then becomes its `subMonth()`; off the billing day the count is the length of the month the date ends up in |
| Plans.AdjustPrice | models/Plan.php:507-538 | the price is left alone unless the plan is monthly `monthly_prorate` |
| Plans.DateAfterAdjustPrice | models/Plan.php:518-527 | the caller's date changes exactly when a prorated monthly plan is before its billing day, and then becomes its `subMonth()` |
| Plans.IsFree | models/Plan.php:151-154 | a plan is free when its price equals 0; a free plan's total is its setup price alone |
| Plans.IsRenewable | models/Plan.php:220-223 | every plan type but lifetime renews; from any start, a plan renews exactly when `getPeriodEndDate` does not return `null`; an unknown type renews and its period end is an error |
| Plans.IsTrialInclusive | models/Plan.php:228-238 | a prorated monthly plan always counts its trial, any other plan as the global setting says; with the setting on, every plan does |
| Plans.IsDowngrade | models/Plan.php:251-254 | a downgrade when the service costs more than the plan; never also an upgrade, and a switch that is neither keeps the same price |
| Plans.IsUpgrade | models/Plan.php:259-262 | an upgrade when the plan costs more than the service; a free plan is never an upgrade from a service with a non-negative price |
| Plans.RoundTo2 | models/Plan.php:537 | PHP `round(x, 2)`, halves away from zero: a whole number of cents within half a cent of `x`, an exact half-cent going to the cent further from zero, never negative for a non-negative `x` |
| Plans.Prorate | models/Plan.php:531-537 | the day rate `price / totalDays` times the billable days, rounded: a whole number of cents within half a cent of that exact share, an exact half-cent going to the cent further from zero, never negative for a non-negative price and day count |
| Plans.SwitchPrice | models/Plan.php:243-246 | never negative; positive exactly on an upgrade; at least the price difference |
| Plans.Total | models/Plan.php:268-273 | the price plus the setup price, a missing setup price counting as 0; a non-negative one never lowers the total below the price |
| PlanProperties.ClampDayClosedForm | models/Plan.php:489-502 | `checkDate` in closed form: the day itself up to 28; above it, the day cut to the month's length; nothing in a 28-day February or outside checkdate's years |
| PlanProperties.AnchorDayValues | models/Plan.php:562-566 | the billing day of a month is 0 exactly when the plan's day is above 28 and the month is a 28-day February; otherwise it is the plan's day cut to the month |
| PlanProperties.AddMonthForward | models/Plan.php:430 | `addMonth()` moves one or two months ahead. It reaches February only from January, with the day unchanged, and changes the year only from December |
| PlanProperties.MoveToNextMonth | models/Plan.php:461-463 | setting the year and month of the `addMonth()` date never overflows, so only the day assignment can carry |
| PlanProperties.MoveToSameMonth | models/Plan.php:449-451 | setting a date's own year and month leaves only the day assignment to act |
| PlanProperties.NextAnchorExists | models/Plan.php:584-590 | after this month's billing day, the next month's billing day is a real day of that month |
| PlanProperties.PeriodStartOnBillingDay | models/Plan.php:394-405 | a `monthly_none` start is a billing day and never before the reference date. It is this month's billing day when that is still ahead, otherwise the billing day of the month `addMonth()` reaches |
| PlanProperties.ProratedPeriodEndsOnBillingDay | models/Plan.php:437-459 | a prorated period ends on a billing day after its start: this month's when the start is before it, otherwise the next month's |
| PlanProperties.FreeOrNonePeriodEnd | models/Plan.php:460-464 | a `monthly_free` or `monthly_none` period ends after its start, on the billing day of the month `addMonth()` reaches. In a 28-day February with a billing day above 28 it ends on the last day of the start's month instead |
| PlanProperties.SignupPeriodEnd | models/Plan.php:432-436 | a `monthly_signup` period ends after its start, in the month `addMonth()` reaches, on the start's day cut to that month |
| PlanProperties.OtherCadencesEnd | models/Plan.php:423-481 | daily periods last `dayInterval` days; yearly ones move by `yearInterval` years; lifetime periods have no end; an unknown type is an error |
| PlanProperties.DaysUntilBillingReachesBillingDay | models/Plan.php:555-593 | adding the count to the reference date lands on a billing day. The count is 0 exactly on a billing day, the day difference before this month's billing day, and otherwise reaches into the month `addMonth()` gives |
| PlanProperties.DaysInCycleMonthLength | models/Plan.php:628-652 | 0 on exactly the days `daysUntilBilling` is 0. Before the billing day it is the previous month's length, whenever the day exists there; after it, the current month's length |
| PlanProperties.RoundTo2KeepsCents | models/Plan.php:537 | `round(x, 2)` leaves a whole number of cents unchanged |
| PlanProperties.RoundTo2Monotone | models/Plan.php:537 | `round(x, 2)` never reverses the order of two amounts |
| PlanProperties.ProrateWholeCycle | models/Plan.php:531-537 | prorating over a whole cycle charges the whole price |
| PlanProperties.ProrateMonotone | models/Plan.php:531-537 | more billable days never cost less |
| PlanProperties.ProratedAmountMonotone | models/Plan.php:532-535 | the unrounded amount grows with the billable days |
| PlanProperties.AdjustPriceProrates | models/Plan.php:507-538 | a prorated plan charges the prorated price exactly when both day counts are positive, otherwise the full price; the full price on a billing day |
| PlanProperties.FreePlanProratesToZero | models/Plan.php:151-154 | a free plan's price stays 0 after proration |
| PlanProperties.UnknownValues | models/Plan.php:382-656 | an unknown plan type: an error for the period end, no day counts, the reference date as period start, the price unchanged; an unknown monthly behaviour: an error for the period end, but day counts as for a fixed billing day and the price unchanged |
| PlanProperties.PolicyHelpers | models/Plan.php:220-262 | renewable exactly when `getPeriodEndDate` does not return `null` (an unknown type renews, and its period end is an error); never both upgrade and downgrade; a downgrade costs nothing and an upgrade the difference; prorated monthly plans are trial-inclusive whatever the setting, other plans exactly when the setting says so |
| PlanProperties.WorkedExamples | models/Plan.php:414-484 | a 7-day plan from 2024-01-01 ends 2024-01-08; a prorated plan on the 31st seen on 2024-02-15 bills on Feb 29, in 14 days, in a cycle of 31 days |
| PlanFindings.ClampDayMissesShortFebruary | models/Plan.php:497-501 | `checkDate(30, 2, 2023)` finds nothing, and a free plan on the 30th starting 2023-01-10 ends on 2023-01-31 |
| PlanFindings.ClampDayIntended | models/Plan.php:486-502 | the corrected clamp always gives a real day of the month, not above the asked day, with no valid day between the two |
| PlanFindings.ClampDayIntendedExtends | models/Plan.php:489-502 | the corrected clamp agrees with `checkDate` wherever `checkDate` answers; `checkDate` fails exactly in a 28-day February above day 28 |
| PlanFindings.SignupSkipsFebruary | models/Plan.php:429-435 | a signup period from 2023-01-31 ends 2023-03-31, and so does a prorated one on the 31st that starts on its billing day |
| PlanFindings.AddMonthNoOverflow | models/Plan.php:430 | the corrected month step lands in exactly the next calendar month, on the same day cut to that month |
| PlanFindings.SignupEndIntended | models/Plan.php:432-436 | the corrected signup end is after the start, exactly one calendar month later, on the start's day cut to that month |
| PlanFindings.SignupEndAgreesWithoutOverflow | models/Plan.php:432-436 | when the start's day exists in the following month, the code's signup end is the corrected one |
| PlanFindings.DaysInCycleOverflow | models/Plan.php:646-651 | for a plan on the 31st, `daysInCycle(2023-03-30)` is 31 although February 2023 has 28 days |
| PlanFindings.DaysInCycleIntended | models/Plan.php:646-651 | before the billing day, the corrected count is the number of days from the first of the previous month to the first of the current one |
| PlanFindings.DaysInCycleAgreesWithoutOverflow | models/Plan.php:646-651 | when the current day exists in the previous month, the code's count is the corrected one |
| Engine.SubscriptionEngine.constructor | classes/SubscriptionEngine.php:45-51 | the engine holds the three managers, its clock starts at the system time, and no request has been made |
| Engine.SubscriptionEngine.Now | classes/SubscriptionEngine.php:59-69 | a given date becomes the clock of the engine and of all three managers and is returned; without one nothing changes and the current clock is returned |
| Engine.SubscriptionEngine.Reset | classes/SubscriptionEngine.php:53-57 | all four clocks are set to the system time; no request is made |
| Engine.SubscriptionEngine.AttemptRenewService | classes/SubscriptionEngine.php:124-149 | the trace grows by exactly the renewal requests; the clock is untouched |
| Engine.PlanIsTrialInclusive | classes/SubscriptionEngine.php:97 | a service counts its trial only when it has a plan and that plan is trial-inclusive; with the setting on, any service with a plan does |
| Engine.SubscriptionEngine.ReceivePayment | classes/SubscriptionEngine.php:93-118 | `delayActivatedAt` takes `currentPeriodEnd` exactly for a trial service on a trial-inclusive plan. `countRenewal` becomes 1 exactly for new or trial services. Status, plan and period end are untouched. The trace grows by exactly the payment's requests |
| Engine.SubscriptionEngine.InvoiceAfterPayment | classes/SubscriptionEngine.php:75-84 | an invoice that belongs to a service is received as that service's payment: the same field updates and requests as `ReceivePayment`, status, plan and period end untouched; any other invoice makes no request |
| EngineProperties.RenewalRequests | classes/SubscriptionEngine.php:129-148 | one invoice is raised, then one payment is attempted on that same invoice. There is no activation or renewal. A successful payment requests no transition. A failed one requests exactly one, with reason "Automatic payment failed": grace exactly when the service has a grace period, past due otherwise |
| EngineProperties.PaymentActivatesNewOrTrial | classes/SubscriptionEngine.php:104-107 | a new or trial service gets exactly one activation request and nothing else |
| EngineProperties.PaymentRenewsGrace | classes/SubscriptionEngine.php:108-114 | a service in grace is renewed once first, then gets one full renewal attempt exactly when its period has ended again |
| EngineProperties.PaymentOnOtherStatuses | classes/SubscriptionEngine.php:115-118 | an active service gets exactly one renewal request; any other status, or none, gets no request |
| EngineProperties.PaymentRequestsAtMostOneRenewal | classes/SubscriptionEngine.php:104-118 | a payment raises at most one invoice and requests at most one transition. A transition only follows a failed automatic payment for a service in grace whose period had ended |
| EngineProperties.TrialInclusion | classes/SubscriptionEngine.php:97 | a missing plan is never trial-inclusive; a prorated monthly plan always is; any other plan follows the global setting |

## Left out

- Reference dates are always parameters. The default to `freshTimestamp()` (the service manager's clock) when a date is missing is not modelled. `freshTimestamp` and `Carbon::now()` read a clock or a singleton.
- Global settings are parameters: the trial-inclusive setting, and whether a service has a grace period.
- Dates have no time of day and no time zone. Only Carbon's calendar arithmetic is modelled.
- Prices are exact reals. Floating-point error in `adjustPrice` is not modelled. `round(x, 2)` is modelled as rounding half away from zero.
- Plan fields are typed values: the day, month and year intervals and the billing day are integers. PHP's loose typing of nulls and numeric strings in those columns is not modelled.
- Taxes (`getTaxClass` and the `...WithTax` and `...Tax` attributes), the display name of the plan type, form helpers, option lists and the active-plan query scope are not modelled. They are presentation and storage concerns around the calculator.
- `isActive`, `hasTrialPeriod`, `getTrialPeriod`, `hasGracePeriod`, `getGracePeriod`, `hasSetupPrice` and `hasMembershipPrice` are not modelled. `isActive`, `getTrialPeriod` and `getGracePeriod` only read a column or a setting; `hasTrialPeriod`, `hasGracePeriod`, `hasSetupPrice` and `hasMembershipPrice` read a column or a setting and compare it with 0.
- The bodies of the service, membership and invoice managers are not part of this model: their requests are recorded in a trace. Their effects on the service (status, period dates), and a failure raised from inside them, are not modelled.
- `serviceInvoiceCache` is not modelled. The engine only ever clears it, in `reset()`.
- The status log and database transactions are not modelled.
- The status codes `past_due` and `cancelled` are folded into `OtherStatus`. The engine treats them like any unknown code.
- Engine.SubscriptionEngine.Now: PHP gives the engine and its three managers one shared Carbon object. The model copies the date value into four clocks, so later in-place changes to that object are not modelled.
- Engine.SubscriptionEngine.ReceivePayment: states the service's fields as the engine itself leaves them. Whatever the requested activation or renewal would change is not modelled. The invoice and `$comment` parameters are unused in the code, and so in the model.
- Plans.DaysInCycle: `subMonth()` changes the caller's date in place. This is modelled as the separate function `Plans.DateAfterDaysInCycle`, not as an update of a shared object.
- Plans.AdjustPrice: returns only the price. `adjustPrice` hands its date object to `daysInCycle`, which moves it back one month in place when a prorated plan is before its billing day. That effect is the separate function `Plans.DateAfterAdjustPrice`, not an update of a shared object.
- PlanProperties.AnchorDayValues, PlanProperties.NextAnchorExists, PlanProperties.PeriodStartOnBillingDay, PlanProperties.ProratedPeriodEndsOnBillingDay, PlanProperties.FreeOrNonePeriodEnd, PlanProperties.SignupPeriodEnd, PlanProperties.DaysUntilBillingReachesBillingDay and PlanProperties.DaysInCycleMonthLength are stated for years 1..32766, and the billing-day ones for a billing day of at least 1. Outside checkdate's years `checkDate` never finds a day above 28, and the plan editor offers days 1 to 31.
- PlanProperties.ProrateWholeCycle: holds for prices in whole cents only. `round(…, 2)` changes any other price even over a whole cycle.
- `monthInterval` is stored with the plan, but no calculation reads it: every monthly period advances by exactly one month, as the code does.
- The calculator model keeps the code's behaviour in the three cases listed under Findings. The corrected definitions stand beside it and are not used by the calculator.

## Findings

| source | as written | input that shows it | evidently intended | confidence | as-written member | corrected member |
|---|---|---|---|---|---|---|
| models/Plan.php:497-501 | the count-down stops above 28, so a 28-day February yields `null`, which callers turn into day 0 (the last day of the previous month) | `checkDate(30, 2, 2023)`; a `monthly_free` plan on the 30th starting 2023-01-10 ends 2023-01-31 | 28, the month's last day; the period ends 2023-02-28 | high, not executed | PlanFindings.ClampDayMissesShortFebruary | PlanFindings.ClampDayIntended |
| models/Plan.php:429-435 | the next period's month is taken from an overflowing `addMonth()`, which skips February after a day it lacks | `monthly_signup` start 2023-01-31 ends 2023-03-31 | one calendar month later, cut to its length: 2023-02-28 | high, not executed | PlanFindings.SignupSkipsFebruary | PlanFindings.SignupEndIntended |
| models/Plan.php:646-651 | "last month" is reached with an overflowing `subMonth()`, which can land back in the current month | plan on the 31st, `daysInCycle(2023-03-30)` answers 31 | the previous month's length, 28 | high, not executed | PlanFindings.DaysInCycleOverflow | PlanFindings.DaysInCycleIntended |
