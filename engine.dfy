/**
 * The subscription engine: what happens to a service when one of its
 * invoices is paid, and how a service is renewed at the end of a period.
 *
 * The engine itself only reads the service's status and plan, writes two of
 * its fields, and asks the service and invoice managers to act. Those
 * managers are not part of this model: each request to them is appended to
 * the engine's `trace`, and what they answer (the invoice they raise,
 * whether the automatic payment went through) and what the service reports
 * about itself after a renewal are supplied as `Answers`.
 */
module Engine {
  import opened Wrappers
  import opened Calendar
  import opened Plans

  /**
   * The status codes the engine tells apart. Every other code (`past_due`,
   * `cancelled`, or one the engine does not know) is `OtherStatus`.
   */
  datatype StatusCode = StatusNew | StatusTrial | StatusActive | StatusGrace | OtherStatus

  /** The fields of a service record that the engine reads or writes. */
  class Service {
    var status: Option<StatusCode>
    var plan: Option<Plan>
    var currentPeriodEnd: Option<Date>
    var delayActivatedAt: Option<Date>
    var countRenewal: int

    constructor(status: Option<StatusCode>, plan: Option<Plan>, currentPeriodEnd: Option<Date>,
                delayActivatedAt: Option<Date>, countRenewal: int)
      ensures this.status == status && this.plan == plan && this.currentPeriodEnd == currentPeriodEnd
      ensures this.delayActivatedAt == delayActivatedAt && this.countRenewal == countRenewal
    {
      this.status := status;
      this.plan := plan;
      this.currentPeriodEnd := currentPeriodEnd;
      this.delayActivatedAt := delayActivatedAt;
      this.countRenewal := countRenewal;
    }
  }

  /** What an invoice is attached to. */
  datatype Related = NoRelated | RelatedService(service: Service) | RelatedOther

  datatype Invoice = Invoice(id: int, related: Related)

  /** A manager that keeps its own clock (service, membership and invoice managers). */
  class Manager {
    var now: Date

    constructor(now: Date)
      ensures this.now == now
    {
      this.now := now;
    }
  }

  /** One request the engine makes of the service manager or the invoice manager. */
  datatype Call =
    | ActivateService(service: Service)
    | RenewService(service: Service)
    | StartGracePeriod(service: Service, reason: string)
    | PastDueService(service: Service, reason: string)
    | RaiseServiceRenewalInvoice(service: Service)
    | AttemptAutomaticPayment(invoice: Invoice, service: Service)

  /** The answers the engine receives from outside during one call. */
  datatype Answers = Answers(
    trialInclusiveSetting: bool,    // the global `is_trial_inclusive` setting
    periodEndedAfterRenewal: bool,  // `hasServicePeriodEnded()` once the renewal is requested
    renewalInvoice: Invoice,        // the invoice `raiseServiceRenewalInvoice` returns
    paymentSucceeded: bool,         // what `attemptAutomaticPayment` returns
    hasGracePeriod: bool)           // the service's `hasGracePeriod()`

  const PAYMENT_FAILED := "Automatic payment failed"

  //
  // The requests each operation makes, as values
  //

  /** The requests of `attemptRenewService`. */
  function RenewalCalls(service: Service, answers: Answers): seq<Call> {
    [RaiseServiceRenewalInvoice(service), AttemptAutomaticPayment(answers.renewalInvoice, service)]
      + (if answers.paymentSucceeded then []
         else if answers.hasGracePeriod then [StartGracePeriod(service, PAYMENT_FAILED)]
         else [PastDueService(service, PAYMENT_FAILED)])
  }

  /** The requests of `receivePayment` for a service with status code `status`. */
  function PaymentCalls(status: Option<StatusCode>, service: Service, answers: Answers): seq<Call> {
    if status == Some(StatusNew) || status == Some(StatusTrial) then
      [ActivateService(service)]
    else if status == Some(StatusGrace) then
      [RenewService(service)] + (if answers.periodEndedAfterRenewal then RenewalCalls(service, answers) else [])
    else if status == Some(StatusActive) then
      [RenewService(service)]
    else
      []
  }

  /** Whether the plan (if any) counts the trial as part of the first period. */
  predicate PlanIsTrialInclusive(plan: Option<Plan>, setting: bool)
    ensures PlanIsTrialInclusive(plan, setting) ==> plan.Some?
    ensures plan.Some? && setting ==> PlanIsTrialInclusive(plan, setting)
  {
    plan.Some? && IsTrialInclusive(plan.value, setting)
  }

  //
  // The engine
  //

  class SubscriptionEngine {
    const serviceManager: Manager
    const membershipManager: Manager
    const invoiceManager: Manager
    var now: Date
    /** Every request made of the managers so far, oldest first. */
    var trace: seq<Call>

    /** `init()`: the managers are the running singletons; the clock starts at the system time. */
    constructor(serviceManager: Manager, membershipManager: Manager, invoiceManager: Manager, systemNow: Date)
      ensures this.serviceManager == serviceManager && this.membershipManager == membershipManager
      ensures this.invoiceManager == invoiceManager
      ensures now == systemNow && trace == []
    {
      this.serviceManager := serviceManager;
      this.membershipManager := membershipManager;
      this.invoiceManager := invoiceManager;
      now := systemNow;
      trace := [];
    }

    /**
     * `now($value)`: a given value becomes the clock of the engine and of
     * its three managers; without one nothing changes. Returns the engine's
     * clock.
     */
    method Now(value: Option<Date>) returns (r: Date)
      modifies this, serviceManager, membershipManager, invoiceManager
      ensures value.Some? ==>
        && r == value.value && now == value.value
        && serviceManager.now == value.value && membershipManager.now == value.value
        && invoiceManager.now == value.value
      ensures value.None? ==>
        && r == old(now) && now == old(now)
        && serviceManager.now == old(serviceManager.now)
        && membershipManager.now == old(membershipManager.now)
        && invoiceManager.now == old(invoiceManager.now)
      ensures trace == old(trace)
    {
      if value.Some? {
        serviceManager.now := value.value;
        membershipManager.now := value.value;
        invoiceManager.now := value.value;
        now := value.value;
      }
      return now;
    }

    /** `reset()`: every clock goes back to the system time. */
    method Reset(systemNow: Date)
      modifies this, serviceManager, membershipManager, invoiceManager
      ensures now == systemNow && serviceManager.now == systemNow
      ensures membershipManager.now == systemNow && invoiceManager.now == systemNow
      ensures trace == old(trace)
    {
      var _ := Now(Some(systemNow));
    }

    /**
     * `attemptRenewService(service)`: raise a renewal invoice, try to pay
     * it, and when that fails start the grace period or mark the service
     * past due.
     */
    method AttemptRenewService(service: Service, answers: Answers)
      modifies this
      ensures trace == old(trace) + RenewalCalls(service, answers)
      ensures now == old(now)
    {
      trace := trace + [RaiseServiceRenewalInvoice(service)];
      var invoice := answers.renewalInvoice;
      trace := trace + [AttemptAutomaticPayment(invoice, service)];
      if !answers.paymentSucceeded {
        if answers.hasGracePeriod {
          trace := trace + [StartGracePeriod(service, PAYMENT_FAILED)];
        } else {
          trace := trace + [PastDueService(service, PAYMENT_FAILED)];
        }
      }
    }

    /**
     * `receivePayment(service, invoice)`: a paid trial that counts towards
     * the first period activates with a delay until the trial's end; a new
     * or trial service is activated as its first renewal; a service in
     * grace is renewed and, if its period is already over again, renewed
     * once more; an active service is renewed.
     */
    method ReceivePayment(service: Service, invoice: Invoice, answers: Answers)
      modifies this, service
      ensures service.delayActivatedAt ==
        if PlanIsTrialInclusive(old(service.plan), answers.trialInclusiveSetting) && old(service.status) == Some(StatusTrial)
        then old(service.currentPeriodEnd) else old(service.delayActivatedAt)
      ensures service.countRenewal ==
        if old(service.status) in {Some(StatusNew), Some(StatusTrial)} then 1 else old(service.countRenewal)
      ensures service.status == old(service.status) && service.plan == old(service.plan)
      ensures service.currentPeriodEnd == old(service.currentPeriodEnd)
      ensures trace == old(trace) + PaymentCalls(old(service.status), service, answers)
      ensures now == old(now)
    {
      var statusCode := service.status;
      var isTrialInclusive := PlanIsTrialInclusive(service.plan, answers.trialInclusiveSetting);

      if isTrialInclusive && statusCode == Some(StatusTrial) {
        service.delayActivatedAt := service.currentPeriodEnd;
      }

      if statusCode == Some(StatusNew) || statusCode == Some(StatusTrial) {
        service.countRenewal := 1;
        trace := trace + [ActivateService(service)];
      } else if statusCode == Some(StatusGrace) {
        trace := trace + [RenewService(service)];
        if answers.periodEndedAfterRenewal {
          AttemptRenewService(service, answers);
        }
      } else if statusCode == Some(StatusActive) {
        trace := trace + [RenewService(service)];
      }
    }

    /**
     * `invoiceAfterPayment(invoice)`: a paid invoice that belongs to a
     * service is received as that service's payment; any other invoice is
     * ignored.
     */
    method InvoiceAfterPayment(invoice: Invoice, answers: Answers)
      modifies this, if invoice.related.RelatedService? then {invoice.related.service} else {}
      ensures invoice.related.RelatedService? ==>
        var service := invoice.related.service;
        && service.delayActivatedAt ==
             (if PlanIsTrialInclusive(old(service.plan), answers.trialInclusiveSetting) && old(service.status) == Some(StatusTrial)
              then old(service.currentPeriodEnd) else old(service.delayActivatedAt))
        && service.countRenewal ==
             (if old(service.status) in {Some(StatusNew), Some(StatusTrial)} then 1 else old(service.countRenewal))
        && service.status == old(service.status) && service.plan == old(service.plan)
        && service.currentPeriodEnd == old(service.currentPeriodEnd)
        && trace == old(trace) + PaymentCalls(old(service.status), service, answers)
      ensures !invoice.related.RelatedService? ==> trace == old(trace)
      ensures now == old(now)
    {
      if invoice.related.RelatedService? {
        ReceivePayment(invoice.related.service, invoice, answers);
      }
    }
  }
}
