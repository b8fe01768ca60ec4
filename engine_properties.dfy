/**
 * What the engine's requests to its managers guarantee: how many requests
 * of each kind a payment or a renewal makes, on which service and invoice,
 * and what decides between the grace period and past due.
 */
module EngineProperties {
  import opened Wrappers
  import opened Plans
  import opened Engine

  datatype CallKind = Activate | Renew | Grace | PastDue | Raise | Attempt

  function KindOf(c: Call): CallKind {
    match c
    case ActivateService(_) => Activate
    case RenewService(_) => Renew
    case StartGracePeriod(_, _) => Grace
    case PastDueService(_, _) => PastDue
    case RaiseServiceRenewalInvoice(_) => Raise
    case AttemptAutomaticPayment(_, _) => Attempt
  }

  /** How many requests of kind `k` the trace holds. */
  function Count(calls: seq<Call>, k: CallKind): (n: nat)
    ensures n <= |calls|
    ensures n == 0 <==> forall i :: 0 <= i < |calls| ==> KindOf(calls[i]) != k
  {
    if calls == [] then 0
    else (if KindOf(calls[0]) == k then 1 else 0) + Count(calls[1..], k)
  }

  lemma {:induction false} CountAppend(a: seq<Call>, b: seq<Call>, k: CallKind)
    ensures Count(a + b, k) == Count(a, k) + Count(b, k)
  {
    if a == [] {
      assert a + b == b;
    } else {
      assert (a + b)[1..] == a[1..] + b;
      CountAppend(a[1..], b, k);
    }
  }

  /** Every request in the trace concerns `service`. */
  predicate AllAbout(calls: seq<Call>, service: Service) {
    forall i :: 0 <= i < |calls| ==> calls[i].service == service
  }

  /** A request that moves the service to grace or past due. */
  predicate IsTransition(c: Call) {
    c.StartGracePeriod? || c.PastDueService?
  }

  /**
   * A renewal raises exactly one invoice, then attempts exactly one payment,
   * of that same invoice; it never activates or renews. A successful payment
   * leads to no status change; a failed one to exactly one, with the
   * "Automatic payment failed" reason: the grace period exactly when the
   * service has one, past due otherwise.
   */
  lemma RenewalRequests(service: Service, answers: Answers)
    ensures var calls := RenewalCalls(service, answers);
      && AllAbout(calls, service)
      && Count(calls, Raise) == 1 && calls[0] == RaiseServiceRenewalInvoice(service)
      && Count(calls, Attempt) == 1 && calls[1] == AttemptAutomaticPayment(answers.renewalInvoice, service)
      && Count(calls, Activate) == 0 && Count(calls, Renew) == 0
      && Count(calls, Grace) + Count(calls, PastDue) == (if answers.paymentSucceeded then 0 else 1)
      && (!answers.paymentSucceeded ==>
            (Count(calls, Grace) == 1 <==> answers.hasGracePeriod))
      && (forall i :: 0 <= i < |calls| && IsTransition(calls[i]) ==> calls[i].reason == PAYMENT_FAILED)
  {
    var head := [RaiseServiceRenewalInvoice(service), AttemptAutomaticPayment(answers.renewalInvoice, service)];
    var tail := RenewalCalls(service, answers)[2..];
    assert RenewalCalls(service, answers) == head + tail;
    forall k: CallKind {
      CountAppend(head, tail, k);
    }
  }

  /**
   * A payment on a new or trial service requests one activation and nothing
   * else.
   */
  lemma PaymentActivatesNewOrTrial(status: Option<StatusCode>, service: Service, answers: Answers)
    requires status == Some(StatusNew) || status == Some(StatusTrial)
    ensures var calls := PaymentCalls(status, service, answers);
      && AllAbout(calls, service)
      && |calls| == Count(calls, Activate) == 1
      && Count(calls, Renew) == 0
  {
  }

  /**
   * A payment on a service in grace requests one renewal, followed by a
   * whole renewal attempt exactly when the period has ended again.
   */
  lemma PaymentRenewsGrace(service: Service, answers: Answers)
    ensures var calls := PaymentCalls(Some(StatusGrace), service, answers);
      && AllAbout(calls, service)
      && calls[0] == RenewService(service) && Count(calls, Renew) == 1
      && Count(calls, Activate) == 0
      && calls[1..] == (if answers.periodEndedAfterRenewal then RenewalCalls(service, answers) else [])
      && Count(calls, Raise) == (if answers.periodEndedAfterRenewal then 1 else 0)
  {
    var calls := PaymentCalls(Some(StatusGrace), service, answers);
    var rest := if answers.periodEndedAfterRenewal then RenewalCalls(service, answers) else [];
    assert calls == [RenewService(service)] + rest;
    RenewalRequests(service, answers);
    forall k: CallKind {
      CountAppend([RenewService(service)], rest, k);
    }
  }

  /**
   * A payment on an active service requests one renewal only; any other
   * status, or none, leads to no request at all.
   */
  lemma PaymentOnOtherStatuses(status: Option<StatusCode>, service: Service, answers: Answers)
    ensures status == Some(StatusActive) ==>
      var calls := PaymentCalls(status, service, answers);
      |calls| == Count(calls, Renew) == 1 && AllAbout(calls, service)
    ensures status !in {Some(StatusNew), Some(StatusTrial), Some(StatusGrace), Some(StatusActive)} ==>
      PaymentCalls(status, service, answers) == []
  {
  }

  /**
   * At most one renewal invoice is raised per payment, and at most one
   * status transition is requested; a transition only ever follows a failed
   * payment.
   */
  lemma PaymentRequestsAtMostOneRenewal(status: Option<StatusCode>, service: Service, answers: Answers)
    ensures var calls := PaymentCalls(status, service, answers);
      && Count(calls, Raise) <= 1
      && Count(calls, Grace) + Count(calls, PastDue) <= 1
      && (Count(calls, Grace) + Count(calls, PastDue) == 1 ==>
            status == Some(StatusGrace) && answers.periodEndedAfterRenewal && !answers.paymentSucceeded)
  {
    RenewalRequests(service, answers);
    if status == Some(StatusGrace) {
      PaymentRenewsGrace(service, answers);
      var rest := if answers.periodEndedAfterRenewal then RenewalCalls(service, answers) else [];
      forall k: CallKind {
        CountAppend([RenewService(service)], rest, k);
      }
    }
  }

  /**
   * Only a trial service on a trial-inclusive plan has its activation
   * delayed; a missing plan is never trial-inclusive, and a prorated monthly
   * plan always is.
   */
  lemma TrialInclusion(plan: Option<Plan>, setting: bool)
    ensures plan.None? ==> !PlanIsTrialInclusive(plan, setting)
    ensures plan.Some? && IsMonthly(plan.value) && plan.value.monthlyBehavior == MONTHLY_PRORATE ==>
      PlanIsTrialInclusive(plan, setting)
    ensures plan.Some? && !(IsMonthly(plan.value) && plan.value.monthlyBehavior == MONTHLY_PRORATE) ==>
      (PlanIsTrialInclusive(plan, setting) <==> setting)
  {
  }
}
