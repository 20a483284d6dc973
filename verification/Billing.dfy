// What each step of the billing engine does to one account. The classes of
// Engine.dfy are proved against these functions; the theorems of the other files
// are about them.
module Billing {
  import opened Prelude
  import opened Calendar
  import opened RetryPolicy
  import opened Model
  import opened Proration

  // The account a step leaves behind, and whether the step raised. Whatever was
  // committed before the exception is in the account.
  datatype Outcome = Outcome(account: Account, raised: bool)

  function SetInvoice(acc: Account, i: nat, inv: Invoice): Account
    requires i < |acc.invoices|
  {
    acc.(invoices := acc.invoices[i := inv])
  }

  predicate Outstanding(inv: Invoice) {
    inv.status == Draft || inv.status == Open
  }

  predicate NothingOutstanding(acc: Account) {
    forall j :: 0 <= j < |acc.invoices| ==> !Outstanding(acc.invoices[j])
  }

  // transition_invoice: the payment is committed first; paying the last
  // outstanding installment then asks for the completion of the subscription,
  // which raises when the status table has no such edge.
  function TransitionInvoice(acc: Account, i: nat, target: InvoiceStatus, now: Instant): Outcome
    requires i < |acc.invoices|
  {
    var moved := MoveInvoice(acc.invoices[i], target, now);
    if moved.None? then Outcome(acc, true)
    else
      var paid := SetInvoice(acc, i, moved.value);
      if target == Paid && acc.sub.kind == Installment && acc.sub.status != Completed &&
         NothingOutstanding(paid)
      then
        var completed := MoveSubscription(acc.sub, Completed, now);
        if completed.None? then Outcome(paid, true)
        else Outcome(paid.(sub := completed.value), false)
      else Outcome(paid, false)
  }

  function TransitionSubscription(acc: Account, target: SubscriptionStatus, now: Instant): Outcome {
    var moved := MoveSubscription(acc.sub, target, now);
    if moved.None? then Outcome(acc, true) else Outcome(acc.(sub := moved.value), false)
  }

  // ------------------------------------------------------------------- dunning

  function Anchored(inv: Invoice, reason: Option<FailureReason>, now: Instant): Invoice {
    if inv.dunningReason.Some? then inv
    else inv.(dunningReason := Some(reason.GetOr(GenericDecline)), firstFailureAt := Some(now))
  }

  function ClearDunning(inv: Invoice): Invoice {
    inv.(nextRetryAt := None, dunningReason := None)
  }

  predicate Live(sub: Subscription) {
    sub.status == Active || sub.status == PastDue
  }

  predicate EligibleForDunning(acc: Account, reason: Option<FailureReason>) {
    reason != Some(RequiresAction) && Live(acc.sub)
  }

  // open_or_advance_dunning
  function OpenOrAdvanceDunning(acc: Account, i: nat, reason: Option<FailureReason>, now: Instant): Account
    requires i < |acc.invoices|
  {
    if !EligibleForDunning(acc, reason) then acc
    else
      var inv := Anchored(acc.invoices[i], reason, now);
      var retriesDone := CountRetries(inv.attempts);
      var gap := NextRetryGapDays(inv.dunningReason, retriesDone);
      var dunned := if acc.sub.status == Active then TransitionSubscription(acc, PastDue, now).account else acc;
      if gap.Some? then
        SetInvoice(dunned, i, inv.(nextRetryAt := Some(now + Days(gap.value))))
      else
        var stopped := SetInvoice(dunned, i, inv.(nextRetryAt := None));
        if RequiresPaymentMethodUpdate(inv.dunningReason) && retriesDone == 0 then stopped
        else TransitionSubscription(stopped, Unpaid, now).account
  }

  // ------------------------------------------------------------------ charging

  // A charge call for an invoice under the key "invoice id - attempt count". A
  // call that returned is recorded as an attempt and advances the count; a call
  // that raised leaves the row as it was.
  function RecordCharge(inv: Invoice, amount: int, charge: Charge, attemptNumber: nat, isRetry: bool, now: Instant)
    : Invoice
  {
    var called := inv.(calls := inv.calls + [ProviderCall(inv.attemptCount, amount, charge, isRetry, now)]);
    match charge
    case Raised => called
    case Returned(status, reason) =>
      called.(
        attempts := inv.attempts +
          [PaymentAttempt(status, reason, ChargeKey(inv.attemptCount), attemptNumber, isRetry)],
        attemptCount := inv.attemptCount + 1)
  }

  function NewInvoice(amount: int, start: Option<Instant>, end: Option<Instant>, due: Option<Instant>): Invoice {
    Invoice(Open, amount, start, end, due, None, 0, None, None, [], [], [], [], None)
  }

  function AdvancePeriod(sub: Subscription, now: Instant): Subscription
    requires sub.periodEnd.Some?
  {
    sub.(periodStart := sub.periodEnd,
         periodEnd := Some(AdvanceBillingPeriod(sub.periodEnd.value, sub.plan.interval, sub.plan.intervalCount)),
         updatedAt := now)
  }

  // The open invoices whose period starts where the current one does.
  function OpenForPeriod(invoices: seq<Invoice>, start: Option<Instant>): seq<nat> {
    if invoices == [] then []
    else
      var n := |invoices| - 1;
      OpenForPeriod(invoices[..n], start) +
        (if OpenFrom(invoices[n], start) then [n] else [])
  }

  predicate OpenFrom(inv: Invoice, start: Option<Instant>) {
    inv.status == Open && inv.periodStart == start
  }

  lemma {:induction false} OpenForPeriodIndices(invoices: seq<Invoice>, start: Option<Instant>)
    ensures forall k :: k in OpenForPeriod(invoices, start) <==>
              0 <= k < |invoices| && OpenFrom(invoices[k], start)
  {
    if invoices != [] {
      OpenForPeriodIndices(invoices[..|invoices| - 1], start);
    }
  }

  lemma {:induction false} NoneMatchNoneFound(invoices: seq<Invoice>, start: Option<Instant>)
    requires forall j :: 0 <= j < |invoices| ==> !OpenFrom(invoices[j], start)
    ensures OpenForPeriod(invoices, start) == []
  {
    if invoices != [] {
      NoneMatchNoneFound(invoices[..|invoices| - 1], start);
    }
  }

  // One match is found where it is, and two matches are noticed.
  lemma {:induction false} OpenForPeriodUnique(invoices: seq<Invoice>, start: Option<Instant>, i: nat)
    requires i < |invoices| && OpenFrom(invoices[i], start)
    ensures (forall j :: 0 <= j < |invoices| && j != i ==> !OpenFrom(invoices[j], start)) <==>
            OpenForPeriod(invoices, start) == [i]
    ensures OpenForPeriod(invoices, start) != [i] ==> |OpenForPeriod(invoices, start)| > 1
  {
    hide OpenFrom;
    var n := |invoices| - 1;
    var shorter := invoices[..n];
    OpenForPeriodIndices(shorter, start);
    if i < n {
      OpenForPeriodUnique(shorter, start, i);
      assert OpenForPeriod(shorter, start) == [i] ==>
        forall j :: 0 <= j < n && j != i ==> shorter[j] == invoices[j] && !OpenFrom(invoices[j], start);
    } else if OpenForPeriod(shorter, start) != [] {
      var j := OpenForPeriod(shorter, start)[0];
      assert j in OpenForPeriod(shorter, start);
      assert OpenFrom(invoices[j], start);
    } else {
      forall j | 0 <= j < n ensures !OpenFrom(invoices[j], start) {
        assert shorter[j] == invoices[j];
        assert j !in OpenForPeriod(shorter, start);
      }
    }
  }

  predicate RenewalDue(acc: Account, now: Instant) {
    && acc.sub.status == Active && acc.sub.kind == Recurring
    && acc.sub.periodEnd.Some? && acc.sub.periodEnd.value <= now
  }

  // One due subscription of process_billing_cycle.
  function Renew(acc: Account, charge: Charge, now: Instant): Outcome
    requires RenewalDue(acc, now)
  {
    OpenForPeriodIndices(acc.invoices, acc.sub.periodStart);
    var existing := OpenForPeriod(acc.invoices, acc.sub.periodStart);
    if |existing| > 1 then Outcome(acc, true)
    else
      var billed := if |existing| == 1 then acc
        else acc.(invoices := acc.invoices +
                    [NewInvoice(acc.sub.plan.amount, acc.sub.periodStart, acc.sub.periodEnd, None)]);
      assert |existing| == 1 ==> existing[0] in existing;
      var i := if |existing| == 1 then existing[0] else |acc.invoices|;
      ChargeRenewal(billed, i, charge, now)
  }

  function ChargeRenewal(acc: Account, i: nat, charge: Charge, now: Instant): Outcome
    requires i < |acc.invoices| && acc.sub.periodEnd.Some?
  {
    if !acc.sub.hasCard then
      Outcome(OpenOrAdvanceDunning(acc, i, Some(InvalidPaymentMethod), now), false)
    else
      var charged := SetInvoice(acc, i,
        RecordCharge(acc.invoices[i], acc.sub.plan.amount, charge, 0, false, now));
      match charge
      case Raised => Outcome(charged, true)
      case Returned(status, reason) =>
        if status == Success then
          var paid := TransitionInvoice(charged, i, Paid, now);
          if paid.raised then paid
          else Outcome(paid.account.(sub := AdvancePeriod(paid.account.sub, now)), false)
        else
          Outcome(OpenOrAdvanceDunning(charged, i, reason, now), false)
  }

  predicate RetryDue(inv: Invoice, now: Instant) {
    inv.status == Open && inv.nextRetryAt.Some? && inv.nextRetryAt.value <= now
  }

  // _retry_invoice
  function Retry(acc: Account, i: nat, charge: Charge, now: Instant): Outcome
    requires i < |acc.invoices|
  {
    var inv := acc.invoices[i];
    if acc.sub.status != PastDue || !acc.sub.hasCard then
      Outcome(SetInvoice(acc, i, inv.(nextRetryAt := None)), false)
    else
      var charged := SetInvoice(acc, i,
        RecordCharge(inv, inv.amountDue, charge, inv.attemptCount, true, now));
      match charge
      case Raised => Outcome(charged, true)
      case Returned(status, reason) =>
        if status == Success then
          var paid := TransitionInvoice(charged, i, Paid, now);
          if paid.raised then paid
          else
            var cleared := SetInvoice(paid.account, i, ClearDunning(paid.account.invoices[i]));
            var advanced := if cleared.sub.periodEnd.None? then cleared
              else cleared.(sub := AdvancePeriod(cleared.sub, now));
            TransitionSubscription(advanced, Active, now)
        else
          Outcome(OpenOrAdvanceDunning(charged, i, reason, now), false)
  }

  predicate InstallmentDue(inv: Invoice, now: Instant) {
    && inv.status == Open && inv.nextRetryAt.None?
    && inv.dueDate.Some? && inv.dueDate.value <= now
  }

  // One row of process_due_installment_invoices. A provider exception is caught
  // for the row; any other exception leaves the loop.
  function ChargeInstallment(acc: Account, i: nat, charge: Charge, now: Instant): Outcome
    requires i < |acc.invoices|
  {
    var inv := acc.invoices[i];
    if !acc.sub.hasCard then
      Outcome(OpenOrAdvanceDunning(acc, i, Some(InvalidPaymentMethod), now), false)
    else
      var charged := SetInvoice(acc, i,
        RecordCharge(inv, inv.amountDue, charge, inv.attemptCount, false, now));
      match charge
      case Raised => Outcome(charged, false)
      case Returned(status, reason) =>
        if status == Success then TransitionInvoice(charged, i, Paid, now)
        else Outcome(OpenOrAdvanceDunning(charged, i, reason, now), false)
  }

  // ------------------------------------------------------------ the other steps

  const DUNNING_GRACE_DAYS: int := 14

  predicate GraceExpired(acc: Account, now: Instant) {
    acc.sub.status == Unpaid && acc.sub.updatedAt <= now - Days(DUNNING_GRACE_DAYS)
  }

  // One subscription of process_unpaid_grace.
  function ExpireGrace(acc: Account, now: Instant): Outcome {
    TransitionSubscription(acc, if acc.sub.kind == Installment then Defaulted else Canceled, now)
  }

  predicate PlanChangeAllowed(acc: Account, newPlan: Plan) {
    && acc.sub.status == Active
    && newPlan.id != acc.sub.plan.id
    && acc.sub.plan.currency == newPlan.currency
  }

  function ProrateChange(sub: Subscription, newPlan: Plan, now: Instant): ProrationResult
    requires sub.plan.currency == newPlan.currency
  {
    var totalDays := if sub.periodStart.Some? && sub.periodEnd.Some?
      then WholeDays(sub.periodEnd.value - sub.periodStart.value) else 0;
    var daysRemaining := if sub.periodStart.Some? && sub.periodEnd.Some?
      then WholeDays(sub.periodEnd.value - now) else 0;
    CalculateProration(sub.plan, newPlan, daysRemaining, totalDays).value
  }

  // change_plan_flow
  function ChangePlan(acc: Account, newPlan: Plan, charge: Charge, now: Instant): Outcome {
    if !PlanChangeAllowed(acc, newPlan) then Outcome(acc, true)
    else
      var proration := ProrateChange(acc.sub, newPlan, now);
      var invoice := NewInvoice(proration.netMinor, Some(now), acc.sub.periodEnd, None)
        .(lineItems := proration.lineItems);
      var i := |acc.invoices|;
      var swapped := Account(acc.sub.(plan := newPlan, updatedAt := now), acc.invoices + [invoice]);
      if proration.netMinor <= 0 then
        TransitionInvoice(swapped, i, Paid, now)
      else if !acc.sub.hasCard then
        Outcome(OpenOrAdvanceDunning(swapped, i, Some(InvalidPaymentMethod), now), false)
      else
        var charged := SetInvoice(swapped, i,
          RecordCharge(invoice, proration.netMinor, charge, invoice.attemptCount, false, now));
        match charge
        case Raised => Outcome(charged, true)
        case Returned(status, reason) =>
          if status == Success then TransitionInvoice(charged, i, Paid, now)
          else Outcome(OpenOrAdvanceDunning(charged, i, reason, now), false)
  }

  // expire_incomplete_subscription_job
  function ExpireIncomplete(acc: Account, now: Instant): Outcome {
    if acc.sub.status != Incomplete then Outcome(acc, false)
    else TransitionSubscription(acc, IncompleteExpired, now)
  }

  function StartPeriod(sub: Subscription, now: Instant): Subscription {
    sub.(periodStart := Some(now),
         periodEnd := Some(ComputePeriodEnd(now, sub.plan.interval, sub.plan.intervalCount)),
         updatedAt := now)
  }

  // activate_trial_subscription_job
  function EndTrial(acc: Account, now: Instant): Outcome {
    if acc.sub.status != Trialing then Outcome(acc, false)
    else if acc.sub.hasCard then
      TransitionSubscription(acc.(sub := StartPeriod(acc.sub, now)), Active, now)
    else TransitionSubscription(acc, Paused, now)
  }

  // The two outcomes of process_nomba_webhook for an invoice that was found.
  function WebhookSucceeded(acc: Account, i: nat, eventId: string, now: Instant): Outcome
    requires i < |acc.invoices|
  {
    var inv := acc.invoices[i];
    var noted := SetInvoice(acc, i, inv.(attempts := inv.attempts +
      [PaymentAttempt(Success, None, Event(eventId), 0, false)]));
    var paid := if inv.status == Paid then Outcome(noted, false) else TransitionInvoice(noted, i, Paid, now);
    if paid.raised then
      // The attempt is committed only together with the payment.
      if InvoiceMoveAllowed(inv.status, Paid) then paid else Outcome(acc, true)
    else
      var cleared := SetInvoice(paid.account, i, ClearDunning(paid.account.invoices[i]));
      if cleared.sub.status in {Incomplete, PastDue} then
        TransitionSubscription(cleared.(sub := StartPeriod(cleared.sub, now)), Active, now)
      else Outcome(cleared, false)
  }

  function WebhookFailed(acc: Account, i: nat, eventId: string, now: Instant): Outcome
    requires i < |acc.invoices|
  {
    var inv := acc.invoices[i];
    var noted := SetInvoice(acc, i, inv.(attempts := inv.attempts +
      [PaymentAttempt(Failed, Some(CardDeclined), Event(eventId), 0, false)]));
    Outcome(OpenOrAdvanceDunning(noted, i, Some(CardDeclined), now), false)
  }

  // ------------------------------------------------------------------- the runs

  // Everything that can happen to an account after its creation. An installment
  // row is charged on the strength of the status read when the worker selected
  // its rows, so the step does not look at the current one.
  datatype Step =
    | RenewStep(charge: Charge)
    | RetryStep(index: nat, charge: Charge)
    | InstallmentStep(index: nat, charge: Charge)
    | GraceStep
    | ChangePlanStep(newPlan: Plan, charge: Charge)
    | WebhookSuccessStep(index: nat, eventId: string)
    | WebhookFailureStep(index: nat, eventId: string)
    | PauseStep
    | ResumeStep
    | CancelStep
    | ExpireStep
    | EndTrialStep
    | CardStep(hasCard: bool, linked: bool)

  function Take(acc: Account, step: Step, now: Instant): Outcome {
    match step
    case RenewStep(charge) =>
      if RenewalDue(acc, now) then Renew(acc, charge, now) else Outcome(acc, false)
    case RetryStep(i, charge) =>
      if i < |acc.invoices| && RetryDue(acc.invoices[i], now) then Retry(acc, i, charge, now)
      else Outcome(acc, false)
    case InstallmentStep(i, charge) =>
      if i < |acc.invoices| && acc.sub.kind == Installment && InstallmentDue(acc.invoices[i], now)
      then ChargeInstallment(acc, i, charge, now) else Outcome(acc, false)
    case GraceStep =>
      if GraceExpired(acc, now) then ExpireGrace(acc, now) else Outcome(acc, false)
    case ChangePlanStep(newPlan, charge) => ChangePlan(acc, newPlan, charge, now)
    case WebhookSuccessStep(i, eventId) =>
      if i < |acc.invoices| then WebhookSucceeded(acc, i, eventId, now) else Outcome(acc, false)
    case WebhookFailureStep(i, eventId) =>
      if i < |acc.invoices| then WebhookFailed(acc, i, eventId, now) else Outcome(acc, false)
    case PauseStep => TransitionSubscription(acc, Paused, now)
    case ResumeStep => TransitionSubscription(acc, Active, now)
    case CancelStep => TransitionSubscription(acc, Canceled, now)
    case ExpireStep => ExpireIncomplete(acc, now)
    case EndTrialStep => EndTrial(acc, now)
    case CardStep(hasCard, linked) =>
      // A card that appears or goes away; linking one touches the subscription's row.
      Outcome(acc.(sub := acc.sub.(hasCard := hasCard,
        updatedAt := if linked then now else acc.sub.updatedAt)), false)
  }

  function Next(acc: Account, step: Step, now: Instant): Account {
    Take(acc, step, now).account
  }

  datatype Timed = Timed(step: Step, now: Instant)

  // Clocks do not run backwards.
  ghost predicate Monotone(start: Instant, steps: seq<Timed>) {
    && (forall k :: 0 <= k < |steps| ==> start <= steps[k].now)
    && (forall j, k :: 0 <= j <= k < |steps| ==> steps[j].now <= steps[k].now)
  }

  function Run(acc: Account, steps: seq<Timed>): Account {
    if steps == [] then acc
    else
      var n := |steps| - 1;
      Next(Run(acc, steps[..n]), steps[n].step, steps[n].now)
  }

  function LastInstant(start: Instant, steps: seq<Timed>): Instant {
    if steps == [] then start else steps[|steps| - 1].now
  }
}
