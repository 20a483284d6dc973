// Every step changes at most one invoice, and in one of a few ways. The theorems
// about invoices are proved once per way instead of once per step.
module Changes {
  import opened Prelude
  import opened RetryPolicy
  import opened Model
  import opened Billing
  import Proration

  datatype Change =
    | StopRetrying
    | Dun(reason: Option<FailureReason>)
    | ChargeRaised(amount: int, number: nat, isRetry: bool)
    | ChargePaid(amount: int, number: nat, isRetry: bool, reason: Option<FailureReason>, cleared: bool)
    | ChargeFailed(amount: int, number: nat, isRetry: bool, status: PaymentStatus,
                   reason: Option<FailureReason>, dunned: bool)
    | SettleForFree
    | WebhookPaid(eventId: string, cleared: bool)
    | WebhookDeclined(eventId: string, dunned: bool)

  // The invoice half of open_or_advance_dunning.
  function Dunned(inv: Invoice, reason: Option<FailureReason>, now: Instant): Invoice {
    var anchored := Anchored(inv, reason, now);
    var gap := NextRetryGapDays(anchored.dunningReason, CountRetries(anchored.attempts));
    anchored.(nextRetryAt := if gap.Some? then Some(now + Days(gap.value)) else None)
  }

  function Settled(inv: Invoice, now: Instant): Invoice {
    var moved := MoveInvoice(inv, Paid, now);
    if moved.Some? then moved.value else inv
  }

  function NotePayment(inv: Invoice, status: PaymentStatus, reason: Option<FailureReason>, eventId: string): Invoice {
    inv.(attempts := inv.attempts + [PaymentAttempt(status, reason, Event(eventId), 0, false)])
  }

  function Apply(inv: Invoice, change: Change, now: Instant): Invoice {
    match change
    case StopRetrying => inv.(nextRetryAt := None)
    case Dun(reason) => Dunned(inv, reason, now)
    case ChargeRaised(amount, number, isRetry) => RecordCharge(inv, amount, Raised, number, isRetry, now)
    case ChargePaid(amount, number, isRetry, reason, cleared) =>
      var paid := Settled(RecordCharge(inv, amount, Returned(Success, reason), number, isRetry, now), now);
      if cleared then ClearDunning(paid) else paid
    case ChargeFailed(amount, number, isRetry, status, reason, dunned) =>
      var charged := RecordCharge(inv, amount, Returned(status, reason), number, isRetry, now);
      if dunned then Dunned(charged, reason, now) else charged
    case SettleForFree => Settled(inv, now)
    case WebhookPaid(eventId, cleared) =>
      var paid := Settled(NotePayment(inv, Success, None, eventId), now);
      if cleared then ClearDunning(paid) else paid
    case WebhookDeclined(eventId, dunned) =>
      var noted := NotePayment(inv, Failed, Some(CardDeclined), eventId);
      if dunned then Dunned(noted, Some(CardDeclined), now) else noted
  }

  // When each change happens. A decline is dunned exactly when the subscription is live
  // and the answer was not a step-up request.
  predicate Allowed(inv: Invoice, change: Change, live: bool, now: Instant) {
    match change
    case StopRetrying => inv.status == Open
    case Dun(reason) => inv.status == Open && live && reason == Some(InvalidPaymentMethod)
    case ChargeRaised(_, _, isRetry) => inv.status == Open && (isRetry ==> RetryDue(inv, now))
    case ChargePaid(_, _, isRetry, _, _) => inv.status == Open && (isRetry ==> RetryDue(inv, now))
    case ChargeFailed(_, _, isRetry, status, reason, dunned) =>
      && inv.status == Open && status != Success
      && (isRetry ==> RetryDue(inv, now) && live)
      && (dunned <==> live && reason != Some(RequiresAction))
    case SettleForFree => inv.status == Open
    case WebhookPaid(_, _) => inv.status == Open || inv.status == Paid
    case WebhookDeclined(_, dunned) => dunned <==> live
  }

  // The changes that open or advance a dunning cycle.
  predicate IsDunning(change: Change) {
    change.Dun? || (change.ChargeFailed? && change.dunned) || (change.WebhookDeclined? && change.dunned)
  }

  predicate IsCharge(change: Change) {
    change.ChargeRaised? || change.ChargePaid? || change.ChargeFailed?
  }

  // The change that the provider's answer calls for.
  predicate Answers(change: Change, charge: Charge) {
    match change
    case ChargeRaised(_, _, _) => charge.Raised?
    case ChargePaid(_, _, _, reason, _) => charge == Returned(Success, reason)
    case ChargeFailed(_, _, _, status, reason, _) => charge == Returned(status, reason)
    case _ => true
  }

  predicate HasCharge(step: Step) {
    step.RenewStep? || step.RetryStep? || step.InstallmentStep? || step.ChangePlanStep?
  }

  // A change that calls the provider asks it for this amount.
  predicate Charges(change: Change, amount: int) {
    IsCharge(change) ==> change.amount == amount
  }

  // An invoice bills the sum of its line items, if it has any.
  predicate BillAddsUp(inv: Invoice) {
    inv.lineItems == [] || Proration.LineTotal(inv.lineItems) == inv.amountDue
  }

  // An invoice as it is issued.
  predicate Untouched(inv: Invoice) {
    && BillAddsUp(inv)
    && inv.status == Open && inv.paidAt.None? && inv.attemptCount == 0
    && inv.nextRetryAt.None? && inv.dunningReason.None? && inv.firstFailureAt.None?
    && inv.attempts == [] && inv.audit == [] && inv.calls == []
  }

  // The three ways a step can leave the invoices of an account.
  predicate ChangedAt(before: seq<Invoice>, after: seq<Invoice>, i: nat, inv: Invoice, change: Change,
                      live: bool, now: Instant) {
    && Allowed(inv, change, live, now)
    && ((i < |before| && inv == before[i] && after == before[i := Apply(inv, change, now)]) ||
        (i == |before| && Untouched(inv) && after == before + [Apply(inv, change, now)]))
  }

  // Access is revoked only by a dunning step that found no retry left.
  predicate Exhausts(inv: Invoice) {
    && inv.dunningReason.Some? && inv.nextRetryAt.None?
    && NextRetryGapDays(inv.dunningReason, CountRetries(inv.attempts)).None?
    && !(RequiresPaymentMethodUpdate(inv.dunningReason) && CountRetries(inv.attempts) == 0)
  }

  // Dunning moves the subscription to unpaid or to past due; nothing else moves it to
  // unpaid.
  predicate DunningDecides(change: Change, before: SubscriptionStatus, after: SubscriptionStatus, inv: Invoice) {
    if IsDunning(change) then after == (if Exhausts(inv) then Unpaid else PastDue)
    else after == Unpaid ==> before == Unpaid
  }

  // open_or_advance_dunning in one clause each: what becomes of the invoice, and
  // exactly when access is revoked.
  lemma DunningOutcome(acc: Account, i: nat, reason: Option<FailureReason>, now: Instant)
    requires i < |acc.invoices|
    ensures var post := OpenOrAdvanceDunning(acc, i, reason, now);
            if EligibleForDunning(acc, reason) then
              && post.invoices == acc.invoices[i := Dunned(acc.invoices[i], reason, now)]
              && post.sub.status == (if Exhausts(post.invoices[i]) then Unpaid else PastDue)
              && post.sub.plan == acc.sub.plan && post.sub.kind == acc.sub.kind
            else post == acc
  {
    hide CountRetries, NextRetryGapDays, RequiresPaymentMethodUpdate;
  }

  // The first decline of an invoice for lack of funds is retried a day later.
  lemma FirstDecline(inv: Invoice, now: Instant)
    requires inv.dunningReason.None? && |inv.attempts| == 1 && !inv.attempts[0].isRetry
    ensures var post := Dunned(inv, Some(InsufficientFunds), now);
            && !Exhausts(post) && post.nextRetryAt == Some(now + Days(1))
            && post.status == inv.status && post.periodStart == inv.periodStart
            && post.amountDue == inv.amountDue && post.attemptCount == inv.attemptCount && post.calls == inv.calls
  {
    assert CountRetries(inv.attempts[..0]) == 0;
  }

  // Dunning and payment leave the terms of the subscription alone.
  lemma DunningKeepsTerms(acc: Account, i: nat, reason: Option<FailureReason>, now: Instant)
    requires i < |acc.invoices|
    ensures var sub := OpenOrAdvanceDunning(acc, i, reason, now).sub;
            && sub.hasCard == acc.sub.hasCard && sub.plan == acc.sub.plan && sub.kind == acc.sub.kind
            && sub.periodStart == acc.sub.periodStart && sub.periodEnd == acc.sub.periodEnd
  {}

  lemma PaymentKeepsTerms(acc: Account, i: nat, now: Instant)
    requires i < |acc.invoices|
    ensures var sub := TransitionInvoice(acc, i, Paid, now).account.sub;
            && sub.hasCard == acc.sub.hasCard && sub.plan == acc.sub.plan && sub.kind == acc.sub.kind
            && sub.periodStart == acc.sub.periodStart && sub.periodEnd == acc.sub.periodEnd
  {}

  // What a step did: the index of the invoice it changed, that invoice before the
  // change, and the change; or no invoice changed.
  lemma StepChange(acc: Account, step: Step, now: Instant)
    returns (changed: bool, i: nat, inv: Invoice, change: Change)
    ensures var post := Next(acc, step, now);
            && (if changed then ChangedAt(acc.invoices, post.invoices, i, inv, change, Live(acc.sub), now)
                else post.invoices == acc.invoices)
            && (if changed then DunningDecides(change, acc.sub.status, post.sub.status, post.invoices[i])
                else post.sub.status == Unpaid ==> acc.sub.status == Unpaid)
    ensures changed && IsCharge(change) ==> HasCharge(step) && Answers(change, step.charge)
    ensures changed && !step.RenewStep? ==> Charges(change, inv.amountDue)
    ensures changed && step.RenewStep? ==>
              Charges(change, acc.sub.plan.amount) &&
              (if i == |acc.invoices| then inv.amountDue == acc.sub.plan.amount
               else OpenFrom(inv, acc.sub.periodStart))
  {
    changed, i, inv, change := false, 0, NewInvoice(0, None, None, None), StopRetrying;
    match step
    case RenewStep(charge) =>
      if RenewalDue(acc, now) { changed, i, inv, change := RenewChange(acc, charge, now); }
    case RetryStep(k, charge) =>
      if k < |acc.invoices| && RetryDue(acc.invoices[k], now) {
        changed, i, inv := true, k, acc.invoices[k];
        change := RetryChange(acc, k, charge, now);
      }
    case InstallmentStep(k, charge) =>
      if k < |acc.invoices| && acc.sub.kind == Installment && InstallmentDue(acc.invoices[k], now) {
        changed, change := InstallmentChange(acc, k, charge, now);
        i, inv := k, acc.invoices[k];
      }
    case ChangePlanStep(newPlan, charge) =>
      if PlanChangeAllowed(acc, newPlan) { changed, i, inv, change := PlanChange(acc, newPlan, charge, now); }
    case WebhookSuccessStep(k, eventId) =>
      if k < |acc.invoices| {
        changed, change := WebhookPaidChange(acc, k, eventId, now);
        i, inv := k, acc.invoices[k];
      }
    case WebhookFailureStep(k, eventId) =>
      if k < |acc.invoices| {
        changed, i, inv := true, k, acc.invoices[k];
        var noted := SetInvoice(acc, k, NotePayment(inv, Failed, Some(CardDeclined), eventId));
        DunningOutcome(noted, k, Some(CardDeclined), now);
        change := WebhookDeclined(eventId, EligibleForDunning(noted, Some(CardDeclined)));
      }
    case _ =>
  }

  function ChargeChange(acc: Account, amount: int, charge: Charge, number: nat, isRetry: bool, cleared: bool): Change {
    match charge
    case Raised => ChargeRaised(amount, number, isRetry)
    case Returned(status, reason) =>
      if status == Success then ChargePaid(amount, number, isRetry, reason, cleared)
      else ChargeFailed(amount, number, isRetry, status, reason, EligibleForDunning(acc, reason))
  }

  lemma PayingKeepsOthers(acc: Account, i: nat, now: Instant)
    requires i < |acc.invoices| && acc.invoices[i].status == Open
    ensures var paid := TransitionInvoice(acc, i, Paid, now);
            && paid.account.invoices == acc.invoices[i := Settled(acc.invoices[i], now)]
            && paid.account.sub.status in {acc.sub.status, Completed}
            && (acc.sub.kind == Recurring ==> paid == Outcome(SetInvoice(acc, i, Settled(acc.invoices[i], now)), false))
            && (paid.account.sub.status == Completed && acc.sub.status != Completed ==> acc.sub.status == Active)
  {}

  lemma ChargedAndDunned(acc: Account, i: nat, charged: Account, inv: Invoice, reason: Option<FailureReason>, now: Instant)
    requires i < |acc.invoices| && charged == SetInvoice(acc, i, inv)
    ensures var post := OpenOrAdvanceDunning(charged, i, reason, now);
            && post.invoices == acc.invoices[i := if EligibleForDunning(acc, reason) then Dunned(inv, reason, now) else inv]
            && (if EligibleForDunning(acc, reason)
                then post.sub.status == (if Exhausts(post.invoices[i]) then Unpaid else PastDue)
                else post.sub == acc.sub)
  {
    DunningOutcome(charged, i, reason, now);
  }

  lemma ChargeRenewalChange(acc: Account, i: nat, charge: Charge, now: Instant) returns (change: Change)
    requires i < |acc.invoices| && acc.invoices[i].status == Open
    requires acc.sub.status == Active && acc.sub.kind == Recurring && acc.sub.periodEnd.Some?
    ensures var post := ChargeRenewal(acc, i, charge, now).account;
            && Allowed(acc.invoices[i], change, Live(acc.sub), now)
            && post.invoices == acc.invoices[i := Apply(acc.invoices[i], change, now)]
            && DunningDecides(change, acc.sub.status, post.sub.status, post.invoices[i])
    ensures Charges(change, acc.sub.plan.amount) && Answers(change, charge)
  {
    hide OpenOrAdvanceDunning, TransitionInvoice, RecordCharge;
    var inv := acc.invoices[i];
    if !acc.sub.hasCard {
      change := Dun(Some(InvalidPaymentMethod));
      DunningOutcome(acc, i, Some(InvalidPaymentMethod), now);
    } else {
      change := ChargeChange(acc, acc.sub.plan.amount, charge, 0, false, false);
      var charged := SetInvoice(acc, i, RecordCharge(inv, acc.sub.plan.amount, charge, 0, false, now));
      RecordKeepsStatus(inv, acc.sub.plan.amount, charge, 0, false, now);
      if charge.Returned? {
        if charge.status == Success { PayingKeepsOthers(charged, i, now); }
        else { ChargedAndDunned(acc, i, charged, charged.invoices[i], charge.reason, now); }
      }
    }
  }

  lemma RenewChange(acc: Account, charge: Charge, now: Instant)
    returns (changed: bool, i: nat, inv: Invoice, change: Change)
    requires RenewalDue(acc, now)
    ensures var post := Renew(acc, charge, now).account;
            && (if changed then ChangedAt(acc.invoices, post.invoices, i, inv, change, Live(acc.sub), now)
                else post.invoices == acc.invoices)
            && (if changed then DunningDecides(change, acc.sub.status, post.sub.status, post.invoices[i])
                else post.sub == acc.sub)
    ensures changed ==>
              Charges(change, acc.sub.plan.amount) && Answers(change, charge) &&
              (if i == |acc.invoices| then inv.amountDue == acc.sub.plan.amount
               else OpenFrom(inv, acc.sub.periodStart))
  {
    hide ChargeRenewal, Exhausts, Apply;
    OpenForPeriodIndices(acc.invoices, acc.sub.periodStart);
    var existing := OpenForPeriod(acc.invoices, acc.sub.periodStart);
    var added := NewInvoice(acc.sub.plan.amount, acc.sub.periodStart, acc.sub.periodEnd, None);
    changed, i, inv, change := false, 0, added, StopRetrying;
    if |existing| <= 1 {
      assert |existing| == 1 ==> existing[0] in existing;
      var billed := if |existing| == 1 then acc else acc.(invoices := acc.invoices + [added]);
      i := if |existing| == 1 then existing[0] else |acc.invoices|;
      inv := billed.invoices[i];
      changed := true;
      change := ChargeRenewalChange(billed, i, charge, now);
    }
  }

  lemma RecordKeepsStatus(inv: Invoice, amount: int, charge: Charge, number: nat, isRetry: bool, now: Instant)
    ensures RecordCharge(inv, amount, charge, number, isRetry, now).status == inv.status
  {}

  lemma RetryChange(acc: Account, i: nat, charge: Charge, now: Instant) returns (change: Change)
    requires i < |acc.invoices| && RetryDue(acc.invoices[i], now)
    ensures var post := Retry(acc, i, charge, now).account;
            && ChangedAt(acc.invoices, post.invoices, i, acc.invoices[i], change, Live(acc.sub), now)
            && DunningDecides(change, acc.sub.status, post.sub.status, post.invoices[i])
    ensures Charges(change, acc.invoices[i].amountDue) && Answers(change, charge)
  {
    hide OpenOrAdvanceDunning, TransitionInvoice, RecordCharge;
    var inv := acc.invoices[i];
    change := StopRetrying;
    if acc.sub.status == PastDue && acc.sub.hasCard {
      var charged := SetInvoice(acc, i, RecordCharge(inv, inv.amountDue, charge, inv.attemptCount, true, now));
      RecordKeepsStatus(inv, inv.amountDue, charge, inv.attemptCount, true, now);
      var cleared := charge.Returned? && charge.status == Success && !TransitionInvoice(charged, i, Paid, now).raised;
      change := ChargeChange(acc, inv.amountDue, charge, inv.attemptCount, true, cleared);
      if charge.Returned? {
        if charge.status == Success { PayingKeepsOthers(charged, i, now); }
        else { ChargedAndDunned(acc, i, charged, charged.invoices[i], charge.reason, now); }
      }
    }
  }

  lemma InstallmentChange(acc: Account, i: nat, charge: Charge, now: Instant) returns (changed: bool, change: Change)
    requires i < |acc.invoices| && acc.invoices[i].status == Open
    ensures var post := ChargeInstallment(acc, i, charge, now).account;
            && (if changed then ChangedAt(acc.invoices, post.invoices, i, acc.invoices[i], change, Live(acc.sub), now)
                else post.invoices == acc.invoices)
            && (if changed then DunningDecides(change, acc.sub.status, post.sub.status, post.invoices[i])
                else post.sub == acc.sub)
    ensures changed ==> Charges(change, acc.invoices[i].amountDue) && Answers(change, charge)
  {
    hide OpenOrAdvanceDunning, TransitionInvoice, RecordCharge;
    var inv := acc.invoices[i];
    if !acc.sub.hasCard {
      change := Dun(Some(InvalidPaymentMethod));
      changed := EligibleForDunning(acc, Some(InvalidPaymentMethod));
      DunningOutcome(acc, i, Some(InvalidPaymentMethod), now);
    } else {
      changed := true;
      change := ChargeChange(acc, inv.amountDue, charge, inv.attemptCount, false, false);
      var charged := SetInvoice(acc, i, RecordCharge(inv, inv.amountDue, charge, inv.attemptCount, false, now));
      RecordKeepsStatus(inv, inv.amountDue, charge, inv.attemptCount, false, now);
      if charge.Returned? {
        if charge.status == Success { PayingKeepsOthers(charged, i, now); }
        else { ChargedAndDunned(acc, i, charged, charged.invoices[i], charge.reason, now); }
      }
    }
  }

  lemma ChangeAddsUp(sub: Subscription, newPlan: Plan, now: Instant)
    requires sub.plan.currency == newPlan.currency
    ensures var p := ProrateChange(sub, newPlan, now); Proration.LineTotal(p.lineItems) == p.netMinor
  {
    hide Proration.CalculateProration, Proration.LineTotal;
    var totalDays := if sub.periodStart.Some? && sub.periodEnd.Some?
      then WholeDays(sub.periodEnd.value - sub.periodStart.value) else 0;
    var daysRemaining := if sub.periodStart.Some? && sub.periodEnd.Some?
      then WholeDays(sub.periodEnd.value - now) else 0;
    Proration.LineItemsAddUp(sub.plan, newPlan, daysRemaining, totalDays);
    ProrationExists(sub.plan, newPlan, daysRemaining, totalDays);
  }

  lemma ProrationExists(oldPlan: Plan, newPlan: Plan, days: int, total: int)
    requires oldPlan.currency == newPlan.currency
    ensures Proration.CalculateProration(oldPlan, newPlan, days, total).Some?
  {}

  lemma PlanChange(acc: Account, newPlan: Plan, charge: Charge, now: Instant)
    returns (changed: bool, i: nat, inv: Invoice, change: Change)
    requires PlanChangeAllowed(acc, newPlan)
    ensures var post := ChangePlan(acc, newPlan, charge, now).account;
            && changed && i == |acc.invoices|
            && ChangedAt(acc.invoices, post.invoices, i, inv, change, Live(acc.sub), now)
            && DunningDecides(change, acc.sub.status, post.sub.status, post.invoices[i])
    ensures Charges(change, inv.amountDue) && Answers(change, charge)
  {
    hide OpenOrAdvanceDunning, TransitionInvoice, RecordCharge, ProrateChange;
    var proration := ProrateChange(acc.sub, newPlan, now);
    inv := NewInvoice(proration.netMinor, Some(now), acc.sub.periodEnd, None).(lineItems := proration.lineItems);
    ChangeAddsUp(acc.sub, newPlan, now);
    changed, i := true, |acc.invoices|;
    var swapped := Account(acc.sub.(plan := newPlan, updatedAt := now), acc.invoices + [inv]);
    if proration.netMinor <= 0 {
      change := SettleForFree;
      PayingKeepsOthers(swapped, i, now);
    } else if !acc.sub.hasCard {
      change := Dun(Some(InvalidPaymentMethod));
      DunningOutcome(swapped, i, Some(InvalidPaymentMethod), now);
    } else {
      change := ChargeChange(acc, proration.netMinor, charge, 0, false, false);
      var charged := SetInvoice(swapped, i, RecordCharge(inv, proration.netMinor, charge, 0, false, now));
      RecordKeepsStatus(inv, proration.netMinor, charge, 0, false, now);
      if charge.Returned? {
        if charge.status == Success { PayingKeepsOthers(charged, i, now); }
        else { ChargedAndDunned(swapped, i, charged, charged.invoices[i], charge.reason, now); }
      }
    }
  }

  lemma WebhookPaidChange(acc: Account, i: nat, eventId: string, now: Instant) returns (changed: bool, change: Change)
    requires i < |acc.invoices|
    ensures var post := WebhookSucceeded(acc, i, eventId, now).account;
            && (if changed then ChangedAt(acc.invoices, post.invoices, i, acc.invoices[i], change, Live(acc.sub), now)
                else post.invoices == acc.invoices)
            && (post.sub.status == Unpaid ==> acc.sub.status == Unpaid)
    ensures changed ==> change.WebhookPaid?
  {
    hide TransitionInvoice;
    var inv := acc.invoices[i];
    var noted := SetInvoice(acc, i, NotePayment(inv, Success, None, eventId));
    changed := inv.status == Open || inv.status == Paid;
    if inv.status == Open { PayingKeepsOthers(noted, i, now); }
    if inv.status != Open && inv.status != Paid { CannotPay(noted, i, now); }
    change := WebhookPaid(eventId, inv.status == Paid || !TransitionInvoice(noted, i, Paid, now).raised);
  }

  lemma CannotPay(acc: Account, i: nat, now: Instant)
    requires i < |acc.invoices| && acc.invoices[i].status != Open
    ensures TransitionInvoice(acc, i, Paid, now) == Outcome(acc, true)
  {}
}
