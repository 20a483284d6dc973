// At most one charge per invoice: the discipline of idempotency keys over whole
// runs, and what it buys with a provider that honours them.
module Charging {
  import opened Prelude
  import opened RetryPolicy
  import opened Model
  import opened Billing
  import opened Changes
  import Dunning
  import Installments

  predicate Succeeded(call: ProviderCall) {
    call.charge.Returned? && call.charge.status == Success
  }

  // A call uses the number of calls that returned before it as its key, so one
  // that raised is repeated under the same key; and nothing follows a success.
  ghost predicate CallsOk(calls: seq<ProviderCall>) {
    forall p :: 0 <= p < |calls| ==>
      calls[p].key == ReturnedCalls(calls[..p]) && (Succeeded(calls[p]) ==> p == |calls| - 1)
  }

  // The recorded charges carry the keys 0, 1, 2, ... and are counted by the row; a
  // success means the invoice is paid.
  ghost predicate KeysOk(inv: Invoice) {
    && inv.attemptCount == ReturnedCalls(inv.calls) == |ChargeKeys(inv.attempts)|
    && (forall j :: 0 <= j < inv.attemptCount ==> ChargeKeys(inv.attempts)[j] == j)
    && CallsOk(inv.calls)
    && (forall p :: 0 <= p < |inv.calls| && Succeeded(inv.calls[p]) ==> inv.status == Paid)
  }

  ghost predicate AllKeysOk(acc: Account) {
    forall i :: 0 <= i < |acc.invoices| ==> KeysOk(acc.invoices[i])
  }

  lemma CallsOkAppend(calls: seq<ProviderCall>, call: ProviderCall)
    requires CallsOk(calls) && call.key == ReturnedCalls(calls)
    requires forall p :: 0 <= p < |calls| ==> !Succeeded(calls[p])
    ensures CallsOk(calls + [call])
  {
    var longer := calls + [call];
    forall p | 0 <= p < |longer| ensures longer[p].key == ReturnedCalls(longer[..p]) {
      assert longer[..p] == calls[..p];
      assert calls[..|calls|] == calls;
    }
  }

  // A charge of an open invoice keeps the discipline; a successful one does as soon
  // as the invoice is settled.
  lemma ChargeKeepsKeys(inv: Invoice, amount: int, charge: Charge, number: nat, isRetry: bool, now: Instant)
    requires KeysOk(inv) && inv.status == Open
    ensures var post := RecordCharge(inv, amount, charge, number, isRetry, now);
            if charge.Returned? && charge.status == Success then KeysOk(Settled(post, now)) else KeysOk(post)
  {
    hide CallsOk, ReturnedCalls, ChargeKeys;
    var call := ProviderCall(inv.attemptCount, amount, charge, isRetry, now);
    var post := RecordCharge(inv, amount, charge, number, isRetry, now);
    CallsOkAppend(inv.calls, call);
    assert CallsOk(post.calls);
    ReturnedCallsAppend(inv.calls, call);
    assert post.attemptCount == ReturnedCalls(post.calls);
    if charge.Returned? {
      CountingAppends(inv.attempts,
        PaymentAttempt(charge.status, charge.reason, ChargeKey(inv.attemptCount), number, isRetry));
      assert ChargeKeys(post.attempts) == ChargeKeys(inv.attempts) + [inv.attemptCount];
    }
    assert post.calls == inv.calls + [call];
    SuccessIsLast(post, charge, now);
  }

  lemma SuccessIsLast(post: Invoice, charge: Charge, now: Instant)
    requires post.status == Open && post.calls != [] && post.calls[|post.calls| - 1].charge == charge
    requires forall p :: 0 <= p < |post.calls| - 1 ==> !Succeeded(post.calls[p])
    ensures Settled(post, now).status == Paid && Settled(post, now).calls == post.calls
    ensures Settled(post, now).attempts == post.attempts && Settled(post, now).attemptCount == post.attemptCount
    ensures !(charge.Returned? && charge.status == Success) ==>
              forall p :: 0 <= p < |post.calls| ==> !Succeeded(post.calls[p])
  {}

  lemma NoteKeepsKeys(inv: Invoice, status: PaymentStatus, reason: Option<FailureReason>, eventId: string)
    requires KeysOk(inv)
    ensures KeysOk(NotePayment(inv, status, reason, eventId))
  {
    CountingAppends(inv.attempts, PaymentAttempt(status, reason, Event(eventId), 0, false));
  }

  lemma SettledKeepsKeys(inv: Invoice, now: Instant)
    requires KeysOk(inv)
    ensures KeysOk(Settled(inv, now))
  {}

  lemma ChangeKeepsKeys(inv: Invoice, change: Change, live: bool, now: Instant)
    requires KeysOk(inv) && Allowed(inv, change, live, now)
    ensures KeysOk(Apply(inv, change, now))
  {
    hide RecordCharge, Settled, NotePayment, CallsOk;
    match change
    case ChargeRaised(amount, number, isRetry) => ChargeKeepsKeys(inv, amount, Raised, number, isRetry, now);
    case ChargePaid(amount, number, isRetry, reason, _) =>
      ChargeKeepsKeys(inv, amount, Returned(Success, reason), number, isRetry, now);
    case ChargeFailed(amount, number, isRetry, status, reason, _) =>
      ChargeKeepsKeys(inv, amount, Returned(status, reason), number, isRetry, now);
    case SettleForFree => SettledKeepsKeys(inv, now);
    case WebhookPaid(eventId, _) =>
      NoteKeepsKeys(inv, Success, None, eventId);
      SettledKeepsKeys(NotePayment(inv, Success, None, eventId), now);
    case WebhookDeclined(eventId, _) => NoteKeepsKeys(inv, Failed, Some(CardDeclined), eventId);
    case _ =>
  }

  lemma StepKeepsKeys(acc: Account, step: Step, now: Instant)
    requires AllKeysOk(acc)
    ensures AllKeysOk(Next(acc, step, now))
  {
    hide Next, KeysOk, Apply;
    var changed, i, inv, change := StepChange(acc, step, now);
    if changed {
      if i == |acc.invoices| { UntouchedKeys(inv); }
      ChangeKeepsKeys(inv, change, Live(acc.sub), now);
    }
  }

  lemma UntouchedKeys(inv: Invoice)
    requires Untouched(inv)
    ensures KeysOk(inv)
  {}

  // In every run, through every interleaving of renewals, retries, installment
  // charges and plan changes, every invoice obeys the key discipline.
  lemma {:induction false} KeyDiscipline(acc: Account, steps: seq<Timed>)
    requires Dunning.Fresh(acc)
    ensures AllKeysOk(Run(acc, steps))
  {
    if steps == [] {
      forall i | 0 <= i < |acc.invoices| ensures KeysOk(acc.invoices[i]) { UntouchedKeys(acc.invoices[i]); }
    } else {
      var n := |steps| - 1;
      KeyDiscipline(acc, steps[..n]);
      StepKeepsKeys(Run(acc, steps[..n]), steps[n].step, steps[n].now);
    }
  }

  // Only open invoices are charged: no step calls the provider for an invoice that
  // is paid, void or written off, and it makes at most one call.
  lemma OnlyOpenInvoicesAreCharged(acc: Account, step: Step, now: Instant, i: nat)
    requires i < |acc.invoices|
    ensures i < |Next(acc, step, now).invoices|
    ensures var before, after := acc.invoices[i].calls, Next(acc, step, now).invoices[i].calls;
            && (after == before || |after| == |before| + 1) && before <= after
            && (after != before ==> acc.invoices[i].status == Open)
  {
    hide Next;
    var changed, k, inv, change := StepChange(acc, step, now);
  }

  // In every run an invoice with line items, as a plan change issues it, bills
  // exactly their signed sum, and is never re-priced.
  lemma {:induction false} BillsAddUp(acc: Account, steps: seq<Timed>)
    requires Dunning.Fresh(acc)
    ensures forall i :: 0 <= i < |Run(acc, steps).invoices| ==> BillAddsUp(Run(acc, steps).invoices[i])
  {
    hide Next;
    if steps != [] {
      var n := |steps| - 1;
      BillsAddUp(acc, steps[..n]);
      var before := Run(acc, steps[..n]);
      var changed, i, inv, change := StepChange(before, steps[n].step, steps[n].now);
      if changed { ChangeKeepsBill(inv, change, steps[n].now); }
    }
  }

  lemma ChangeKeepsBill(inv: Invoice, change: Change, now: Instant)
    ensures Apply(inv, change, now).amountDue == inv.amountDue && Apply(inv, change, now).lineItems == inv.lineItems
  {}

  // -------------------------------------------------------- charged what is billed

  // Every call asked the provider for the amount the invoice bills.
  ghost predicate ChargedAsBilled(inv: Invoice) {
    forall p :: 0 <= p < |inv.calls| ==> inv.calls[p].amountMinor == inv.amountDue
  }

  ghost predicate AllChargedAsBilled(acc: Account) {
    forall i :: 0 <= i < |acc.invoices| ==> ChargedAsBilled(acc.invoices[i])
  }

  // Renewals charge the price of the plan, whatever the open invoice of the period
  // bills.
  predicate RenewalsBillPlanPrice(acc: Account) {
    forall i :: 0 <= i < |acc.invoices| && OpenFrom(acc.invoices[i], acc.sub.periodStart) ==>
      acc.invoices[i].amountDue == acc.sub.plan.amount
  }

  lemma ChangeChargesAsBilled(inv: Invoice, change: Change, now: Instant)
    requires ChargedAsBilled(inv) && Charges(change, inv.amountDue)
    ensures ChargedAsBilled(Apply(inv, change, now))
  {}

  lemma StepChargesAsBilled(acc: Account, step: Step, now: Instant)
    requires AllChargedAsBilled(acc)
    requires step.RenewStep? ==> RenewalsBillPlanPrice(acc)
    ensures AllChargedAsBilled(Next(acc, step, now))
  {
    hide Next, Apply, ChargedAsBilled, Charges;
    var changed, i, inv, change := StepChange(acc, step, now);
    if changed {
      if i == |acc.invoices| { UntouchedChargesNothing(inv); }
      ChangeChargesAsBilled(inv, change, now);
    }
  }

  lemma UntouchedChargesNothing(inv: Invoice)
    requires Untouched(inv)
    ensures ChargedAsBilled(inv)
  {}

  // Only a plan change changes the plan.
  lemma StepKeepsPlan(acc: Account, step: Step, now: Instant)
    requires !step.ChangePlanStep?
    ensures Next(acc, step, now).sub.plan == acc.sub.plan
  {
    hide OpenOrAdvanceDunning, TransitionInvoice, RecordCharge, Renew, Retry, ChargeInstallment, WebhookSucceeded;
    match step
    case RenewStep(charge) => if RenewalDue(acc, now) { RenewKeepsPlan(acc, charge, now); }
    case RetryStep(i, charge) => if i < |acc.invoices| { RetryKeepsPlan(acc, i, charge, now); }
    case InstallmentStep(i, charge) => if i < |acc.invoices| { InstallmentKeepsPlan(acc, i, charge, now); }
    case WebhookSuccessStep(i, eventId) => if i < |acc.invoices| { WebhookKeepsPlan(acc, i, eventId, now); }
    case WebhookFailureStep(i, eventId) =>
      if i < |acc.invoices| {
        DunningKeepsTerms(SetInvoice(acc, i, NotePayment(acc.invoices[i], Failed, Some(CardDeclined), eventId)),
          i, Some(CardDeclined), now);
      }
    case _ =>
  }

  lemma RenewKeepsPlan(acc: Account, charge: Charge, now: Instant)
    requires RenewalDue(acc, now)
    ensures Renew(acc, charge, now).account.sub.plan == acc.sub.plan
  {
    hide ChargeRenewal;
    OpenForPeriodIndices(acc.invoices, acc.sub.periodStart);
    var existing := OpenForPeriod(acc.invoices, acc.sub.periodStart);
    if |existing| == 1 {
      assert existing[0] in existing;
      ChargingKeepsPlan(acc, existing[0], charge, now);
    } else if |existing| == 0 {
      ChargingKeepsPlan(acc.(invoices := acc.invoices +
        [NewInvoice(acc.sub.plan.amount, acc.sub.periodStart, acc.sub.periodEnd, None)]), |acc.invoices|, charge, now);
    }
  }

  lemma ChargingKeepsPlan(acc: Account, i: nat, charge: Charge, now: Instant)
    requires i < |acc.invoices| && acc.sub.status == Active && acc.sub.kind == Recurring && acc.sub.periodEnd.Some?
    ensures ChargeRenewal(acc, i, charge, now).account.sub.plan == acc.sub.plan
  {
    hide OpenOrAdvanceDunning, TransitionInvoice, RecordCharge;
    var charged := SetInvoice(acc, i, RecordCharge(acc.invoices[i], acc.sub.plan.amount, charge, 0, false, now));
    PaymentKeepsTerms(charged, i, now);
    DunningKeepsTerms(acc, i, Some(InvalidPaymentMethod), now);
    if charge.Returned? { DunningKeepsTerms(charged, i, charge.reason, now); }
  }

  lemma RetryKeepsPlan(acc: Account, i: nat, charge: Charge, now: Instant)
    requires i < |acc.invoices|
    ensures Retry(acc, i, charge, now).account.sub.plan == acc.sub.plan
  {
    hide OpenOrAdvanceDunning, TransitionInvoice, RecordCharge;
    var inv := acc.invoices[i];
    var charged := SetInvoice(acc, i, RecordCharge(inv, inv.amountDue, charge, inv.attemptCount, true, now));
    PaymentKeepsTerms(charged, i, now);
    if charge.Returned? { DunningKeepsTerms(charged, i, charge.reason, now); }
  }

  lemma InstallmentKeepsPlan(acc: Account, i: nat, charge: Charge, now: Instant)
    requires i < |acc.invoices|
    ensures ChargeInstallment(acc, i, charge, now).account.sub.plan == acc.sub.plan
  {
    hide OpenOrAdvanceDunning, TransitionInvoice, RecordCharge;
    var inv := acc.invoices[i];
    var charged := SetInvoice(acc, i, RecordCharge(inv, inv.amountDue, charge, inv.attemptCount, false, now));
    PaymentKeepsTerms(charged, i, now);
    DunningKeepsTerms(acc, i, Some(InvalidPaymentMethod), now);
    if charge.Returned? { DunningKeepsTerms(charged, i, charge.reason, now); }
  }

  lemma WebhookKeepsPlan(acc: Account, i: nat, eventId: string, now: Instant)
    requires i < |acc.invoices|
    ensures WebhookSucceeded(acc, i, eventId, now).account.sub.plan == acc.sub.plan
  {
    hide TransitionInvoice;
    PaymentKeepsTerms(SetInvoice(acc, i, NotePayment(acc.invoices[i], Success, None, eventId)), i, now);
  }

  ghost predicate BilledAt(acc: Account, amount: int) {
    && acc.sub.plan.amount == amount
    && forall i :: 0 <= i < |acc.invoices| ==> acc.invoices[i].amountDue == amount
  }

  lemma StepKeepsBilling(acc: Account, step: Step, now: Instant, amount: int)
    requires BilledAt(acc, amount) && !step.ChangePlanStep?
    ensures BilledAt(Next(acc, step, now), amount)
  {
    hide Next;
    StepKeepsPlan(acc, step, now);
    var changed, i, inv, change := StepChange(acc, step, now);
    if changed {
      ChangeKeepsBill(inv, change, now);
      if i == |acc.invoices| && !step.RenewStep? { Installments.OnlyBillingIssues(acc, step, now); }
    }
  }

  // In every run without a plan change, every call of every charging path asks for
  // exactly what its invoice bills, which is the price of the plan.
  lemma {:induction false} ChargesMatchBills(acc: Account, steps: seq<Timed>)
    requires Dunning.Fresh(acc) && BilledAt(acc, acc.sub.plan.amount)
    requires forall k :: 0 <= k < |steps| ==> !steps[k].step.ChangePlanStep?
    ensures AllChargedAsBilled(Run(acc, steps)) && BilledAt(Run(acc, steps), acc.sub.plan.amount)
  {
    hide Next, ChargedAsBilled;
    if steps == [] {
      forall i | 0 <= i < |acc.invoices| ensures ChargedAsBilled(acc.invoices[i]) {
        UntouchedChargesNothing(acc.invoices[i]);
      }
    } else {
      var n := |steps| - 1;
      ChargesMatchBills(acc, steps[..n]);
      StepChargesAsBilled(Run(acc, steps[..n]), steps[n].step, steps[n].now);
      StepKeepsBilling(Run(acc, steps[..n]), steps[n].step, steps[n].now, acc.sub.plan.amount);
    }
  }

  // After a plan change it need not be. A renewal that finds the open invoice of the
  // period charges as billed exactly when that invoice bills the price of the
  // current plan.
  lemma RenewalChargesAsBilledIff(acc: Account, i: nat, charge: Charge, now: Instant)
    requires RenewalDue(acc, now) && acc.sub.hasCard
    requires i < |acc.invoices| && OpenForPeriod(acc.invoices, acc.sub.periodStart) == [i]
    requires ChargedAsBilled(acc.invoices[i])
    ensures i < |Renew(acc, charge, now).account.invoices|
    ensures ChargedAsBilled(Renew(acc, charge, now).account.invoices[i]) <==>
            acc.invoices[i].amountDue == acc.sub.plan.amount
  {
    hide OpenOrAdvanceDunning, TransitionInvoice, OpenForPeriod;
    OpenIsFound(acc, i);
    ChargedByRenewal(acc, i, charge, now);
    var inv, post := acc.invoices[i], Renew(acc, charge, now).account.invoices[i];
    assert post.calls[|inv.calls|].amountMinor == acc.sub.plan.amount;
  }

  lemma OpenIsFound(acc: Account, i: nat)
    requires i < |acc.invoices| && OpenForPeriod(acc.invoices, acc.sub.periodStart) == [i]
    ensures OpenFrom(acc.invoices[i], acc.sub.periodStart)
  {
    OpenForPeriodIndices(acc.invoices, acc.sub.periodStart);
    assert i in OpenForPeriod(acc.invoices, acc.sub.periodStart);
  }

  lemma ChargedByRenewal(acc: Account, i: nat, charge: Charge, now: Instant)
    requires RenewalDue(acc, now) && acc.sub.hasCard
    requires i < |acc.invoices| && OpenForPeriod(acc.invoices, acc.sub.periodStart) == [i]
    requires acc.invoices[i].status == Open
    ensures var post := Renew(acc, charge, now).account;
            var inv := acc.invoices[i];
            && |post.invoices| == |acc.invoices| && post.invoices[i].amountDue == inv.amountDue
            && post.invoices[i].calls ==
                 inv.calls + [ProviderCall(inv.attemptCount, acc.sub.plan.amount, charge, false, now)]
            && (charge.Returned? && charge.status == Success ==> post.invoices[i].status == Paid)
  {
    hide OpenOrAdvanceDunning, TransitionInvoice, OpenForPeriod;
    var inv := acc.invoices[i];
    var charged := SetInvoice(acc, i, RecordCharge(inv, acc.sub.plan.amount, charge, 0, false, now));
    PayingKeepsOthers(charged, i, now);
    if charge.Returned? { ChargedAndDunned(acc, i, charged, charged.invoices[i], charge.reason, now); }
  }

  // And it can be otherwise: a declined renewal leaves an open invoice behind; the
  // customer resumes the subscription and moves to another plan, which costs nothing
  // once the period is over; the next renewal then collects the price of the new
  // plan on the invoice that bills the old one.
  lemma ResumedPlanChangeMischarges(acc: Account, newPlan: Plan, now: Instant)
    requires RenewalDue(acc, now) && acc.sub.hasCard && acc.invoices == []
    requires newPlan.id != acc.sub.plan.id && newPlan.currency == acc.sub.plan.currency
    ensures var declined := Next(acc, RenewStep(Returned(Failed, Some(InsufficientFunds))), now);
            var moved := Next(Next(declined, ResumeStep, now), ChangePlanStep(newPlan, Raised), now);
            var post := Next(moved, RenewStep(Returned(Success, None)), now);
            && |post.invoices| == 2 && post.invoices[0].status == Paid
            && post.invoices[0].amountDue == acc.sub.plan.amount
            && post.invoices[0].calls == [
                 ProviderCall(0, acc.sub.plan.amount, Returned(Failed, Some(InsufficientFunds)), false, now),
                 ProviderCall(1, newPlan.amount, Returned(Success, None), false, now)]
  {
    hide Next, ChangePlan;
    var declined := Next(acc, RenewStep(Returned(Failed, Some(InsufficientFunds))), now);
    DeclinedRenewal(acc, now);
    var resumed := Next(declined, ResumeStep, now);
    ResumesFromPastDue(declined, now);
    var moved := Next(resumed, ChangePlanStep(newPlan, Raised), now);
    FreePlanChange(resumed, newPlan, now);
    assert OpenFrom(moved.invoices[0], moved.sub.periodStart);
    OpenForPeriodUnique(moved.invoices, moved.sub.periodStart, 0);
    ChargedByRenewal(moved, 0, Returned(Success, None), now);
    DueIsRenewed(moved, Returned(Success, None), now);
  }

  lemma DueIsRenewed(acc: Account, charge: Charge, now: Instant)
    requires RenewalDue(acc, now)
    ensures Next(acc, RenewStep(charge), now) == Renew(acc, charge, now).account
  {
    hide Renew;
  }

  lemma DeclinedRenewal(acc: Account, now: Instant)
    requires RenewalDue(acc, now) && acc.sub.hasCard && acc.invoices == []
    ensures var charge := Returned(Failed, Some(InsufficientFunds));
            var post := Next(acc, RenewStep(charge), now);
            && post.sub.status == PastDue && post.sub.hasCard && post.sub.plan == acc.sub.plan
            && post.sub.kind == Recurring
            && post.sub.periodStart == acc.sub.periodStart && post.sub.periodEnd == acc.sub.periodEnd
            && |post.invoices| == 1 && var inv := post.invoices[0];
               && OpenFrom(inv, acc.sub.periodStart) && inv.amountDue == acc.sub.plan.amount
               && inv.attemptCount == 1
               && inv.calls == [ProviderCall(0, acc.sub.plan.amount, charge, false, now)]
  {
    hide OpenOrAdvanceDunning, Exhausts, Dunned;
    var charge := Returned(Failed, Some(InsufficientFunds));
    var inv := NewInvoice(acc.sub.plan.amount, acc.sub.periodStart, acc.sub.periodEnd, None);
    var charged := RecordCharge(inv, acc.sub.plan.amount, charge, 0, false, now);
    var billed := Account(acc.sub, [inv]);
    assert acc.invoices + [inv] == [inv];
    DueIsRenewed(acc, charge, now);
    DunningOutcome(SetInvoice(billed, 0, charged), 0, charge.reason, now);
    DunningKeepsTerms(SetInvoice(billed, 0, charged), 0, charge.reason, now);
    FirstDecline(charged, now);
  }

  lemma ResumesFromPastDue(acc: Account, now: Instant)
    requires acc.sub.status == PastDue
    ensures var post := Next(acc, ResumeStep, now);
            && post.invoices == acc.invoices && post.sub.status == Active
            && post.sub.hasCard == acc.sub.hasCard && post.sub.plan == acc.sub.plan
            && post.sub.kind == acc.sub.kind
            && post.sub.periodStart == acc.sub.periodStart && post.sub.periodEnd == acc.sub.periodEnd
  {}

  lemma FreePlanChange(acc: Account, newPlan: Plan, now: Instant)
    requires PlanChangeAllowed(acc, newPlan) && acc.sub.kind == Recurring
    requires acc.sub.periodEnd.Some? && acc.sub.periodEnd.value <= now
    ensures var post := Next(acc, ChangePlanStep(newPlan, Raised), now);
            && |post.invoices| == |acc.invoices| + 1 && post.invoices[..|acc.invoices|] == acc.invoices
            && post.invoices[|acc.invoices|].status == Paid
            && post.sub == acc.sub.(plan := newPlan, updatedAt := now)
  {
    hide TransitionInvoice, ProrateChange;
    var net := ProrateChange(acc.sub, newPlan, now);
    NothingOwed(acc.sub, newPlan, now);
    var inv := NewInvoice(net.netMinor, Some(now), acc.sub.periodEnd, None).(lineItems := net.lineItems);
    var swapped := Account(acc.sub.(plan := newPlan, updatedAt := now), acc.invoices + [inv]);
    PayingKeepsOthers(swapped, |acc.invoices|, now);
  }

  lemma NothingOwed(sub: Subscription, newPlan: Plan, now: Instant)
    requires sub.plan.currency == newPlan.currency
    requires sub.periodEnd.Some? && sub.periodEnd.value <= now
    ensures ProrateChange(sub, newPlan, now).netMinor == 0
  {
    assert WholeDays(sub.periodEnd.value - now) <= 0;
  }

  // ------------------------------------------------------- idempotent providers

  // captured[p] says that the p-th call moved money. A provider that honours
  // idempotency keys moves it at most once per key and, having moved it, answers
  // every repetition with the original success.
  ghost predicate HonoursKeys(calls: seq<ProviderCall>, captured: seq<bool>) {
    && |captured| == |calls|
    && (forall p, q :: 0 <= p < q < |calls| && calls[p].key == calls[q].key && captured[p] ==>
          !captured[q] && (calls[q].charge.Returned? ==> Succeeded(calls[q])))
  }

  predicate Refused(call: ProviderCall) {
    call.charge.Returned? && call.charge.status != Success
  }

  // A call that was answered with anything but success has moved nothing, and never
  // will.
  ghost predicate RefusalsAreFinal(calls: seq<ProviderCall>, captured: seq<bool>) {
    |captured| == |calls| && forall p :: 0 <= p < |calls| && Refused(calls[p]) ==> !captured[p]
  }

  ghost predicate CapturedTwice(captured: seq<bool>) {
    exists p, q :: 0 <= p < q < |captured| && captured[p] && captured[q]
  }

  // A call that was refused and was not the last one.
  predicate RefusedAndRepeated(calls: seq<ProviderCall>) {
    exists p :: 0 <= p < |calls| - 1 && Refused(calls[p])
  }

  // With a provider that honours keys and whose refusals are final, an invoice is
  // captured at most once in any run, however many of its charges time out.
  lemma CapturedAtMostOnce(acc: Account, steps: seq<Timed>, i: nat, captured: seq<bool>)
    requires Dunning.Fresh(acc) && i < |Run(acc, steps).invoices|
    requires HonoursKeys(Run(acc, steps).invoices[i].calls, captured)
    requires RefusalsAreFinal(Run(acc, steps).invoices[i].calls, captured)
    ensures !CapturedTwice(captured)
  {
    hide Run;
    KeyDiscipline(acc, steps);
    var inv := Run(acc, steps).invoices[i];
    assert KeysOk(inv);
    if CapturedTwice(captured) {
      var p, q :| 0 <= p < q < |captured| && captured[p] && captured[q];
      FirstOfTwoIsRefused(inv, captured, p, q);
      assert false;
    }
  }

  // Honoured keys alone are not enough. Of the first of two captures they only say
  // that it was answered, and not with success.
  lemma FirstOfTwoIsRefused(inv: Invoice, captured: seq<bool>, p: nat, q: nat)
    requires KeysOk(inv) && HonoursKeys(inv.calls, captured)
    requires p < q < |captured| && captured[p] && captured[q]
    ensures Refused(inv.calls[p])
  {
    // The key moved on, so some call returned in between. If it is not the first one,
    // it repeats its key, so it succeeded; and nothing follows a success.
    var r := FirstReturn(inv, p, q);
  }

  lemma {:induction false} FirstReturn(inv: Invoice, p: nat, q: nat) returns (r: nat)
    requires KeysOk(inv) && p < q < |inv.calls| && inv.calls[p].key != inv.calls[q].key
    ensures p <= r < q && inv.calls[r].charge.Returned? && inv.calls[r].key == inv.calls[p].key
    decreases q - p
  {
    assert inv.calls[..p + 1][..p] == inv.calls[..p];
    if inv.calls[p].charge.Returned? {
      r := p;
    } else {
      assert inv.calls[p + 1].key == inv.calls[p].key;
      r := FirstReturn(inv, p + 1, q);
    }
  }

  lemma {:induction false} KeysGrow(inv: Invoice, p: nat, q: nat)
    requires KeysOk(inv) && p < q < |inv.calls|
    ensures inv.calls[p].key + (if inv.calls[p].charge.Returned? then 1 else 0) <= inv.calls[q].key
    decreases q - p
  {
    assert inv.calls[..p + 1][..p] == inv.calls[..p];
    if p + 1 < q { KeysGrow(inv, p + 1, q); }
  }

  // A refused call and the last one can both be captured: their keys differ.
  lemma RefusalAllowsSecondCapture(inv: Invoice, p: nat) returns (captured: seq<bool>)
    requires KeysOk(inv) && p < |inv.calls| - 1 && Refused(inv.calls[p])
    ensures HonoursKeys(inv.calls, captured) && CapturedTwice(captured)
  {
    var n := |inv.calls| - 1;
    captured := seq(n + 1, k => k == p || k == n);
    forall q | p < q <= n ensures inv.calls[p].key != inv.calls[q].key {
      KeysGrow(inv, p, q);
    }
    assert captured[p] && captured[n];
  }

  // When an invoice can be captured twice: in any run, a provider that does no more
  // than honour idempotency keys may capture it twice if and only if one of its calls
  // was answered with anything but success and another call followed. A pending
  // answer is the case in point.
  lemma CapturableTwiceIff(acc: Account, steps: seq<Timed>, i: nat)
    requires Dunning.Fresh(acc) && i < |Run(acc, steps).invoices|
    ensures var calls := Run(acc, steps).invoices[i].calls;
            (exists captured :: HonoursKeys(calls, captured) && CapturedTwice(captured)) <==>
            RefusedAndRepeated(calls)
  {
    hide Run;
    KeyDiscipline(acc, steps);
    CapturableIff(Run(acc, steps).invoices[i]);
  }

  lemma CapturableIff(inv: Invoice)
    requires KeysOk(inv)
    ensures (exists captured :: HonoursKeys(inv.calls, captured) && CapturedTwice(captured)) <==>
            RefusedAndRepeated(inv.calls)
  {
    if RefusedAndRepeated(inv.calls) {
      var p :| 0 <= p < |inv.calls| - 1 && Refused(inv.calls[p]);
      var captured := RefusalAllowsSecondCapture(inv, p);
    }
    forall captured | HonoursKeys(inv.calls, captured) && CapturedTwice(captured)
      ensures RefusedAndRepeated(inv.calls)
    {
      var p, q :| 0 <= p < q < |captured| && captured[p] && captured[q];
      FirstOfTwoIsRefused(inv, captured, p, q);
    }
  }

  // The adapter interface has a pending answer, and the engine treats it as a decline.
  // A retry answered so is followed by another one exactly when the schedule of the
  // anchor has an offset left; that one asks for the same amount under another key,
  // and a provider that honours keys may then capture both.
  lemma PendingIsChargedAgain(acc: Account, i: nat, now: Instant, later: Instant)
    requires AllKeysOk(acc)
    requires i < |acc.invoices| && RetryDue(acc.invoices[i], now)
    requires acc.sub.status == PastDue && acc.sub.hasCard && acc.invoices[i].dunningReason.Some?
    ensures var once := Retry(acc, i, Returned(Pending, None), now).account;
            var before := acc.invoices[i];
            var k := CountRetries(before.attempts) + 1;
            var first := ProviderCall(before.attemptCount, before.amountDue, Returned(Pending, None), true, now);
            var second := ProviderCall(before.attemptCount + 1, before.amountDue, Returned(Success, None), true, later);
            && i < |once.invoices| && once.invoices[i].calls == before.calls + [first]
            && (once.invoices[i].nextRetryAt.Some? <==> k < |Schedule(before.dunningReason.value)|)
            && (RetryDue(once.invoices[i], later) ==>
                  var twice := Retry(once, i, Returned(Success, None), later).account;
                  && i < |twice.invoices| && twice.invoices[i].calls == before.calls + [first, second]
                  && exists captured :: HonoursKeys(twice.invoices[i].calls, captured) && CapturedTwice(captured))
  {
    hide Retry, CountRetries, KeysOk, Schedule;
    PendingSchedulesAgain(acc, i, now);
    var before := acc.invoices[i];
    var once := Retry(acc, i, Returned(Pending, None), now).account;
    if RetryDue(once.invoices[i], later) {
      RetryRecords(once, i, Returned(Success, None), later);
      var calls := Retry(once, i, Returned(Success, None), later).account.invoices[i].calls;
      assert calls == once.invoices[i].calls + [calls[|calls| - 1]];
      assert Refused(calls[|before.calls|]);
      RetriesKeepKeys(acc, i, Returned(Pending, None), now);
      RetriesKeepKeys(once, i, Returned(Success, None), later);
      CapturableIff(Retry(once, i, Returned(Success, None), later).account.invoices[i]);
    }
  }

  lemma RetriesKeepKeys(acc: Account, i: nat, charge: Charge, now: Instant)
    requires AllKeysOk(acc) && i < |acc.invoices| && RetryDue(acc.invoices[i], now)
    ensures AllKeysOk(Retry(acc, i, charge, now).account)
  {
    hide Take, KeysOk;
    StepKeepsKeys(acc, RetryStep(i, charge), now);
    Dunning.RetryIsStep(acc, i, charge, now);
  }

  lemma PendingSchedulesAgain(acc: Account, i: nat, now: Instant)
    requires i < |acc.invoices| && RetryDue(acc.invoices[i], now)
    requires acc.sub.status == PastDue && acc.sub.hasCard && acc.invoices[i].dunningReason.Some?
    ensures var once := Retry(acc, i, Returned(Pending, None), now).account;
            var before := acc.invoices[i];
            var k := CountRetries(before.attempts) + 1;
            && |once.invoices| == |acc.invoices| && once.sub.hasCard
            && var after := once.invoices[i];
               && after.status == Open && after.attemptCount == before.attemptCount + 1
               && after.amountDue == before.amountDue
               && (after.nextRetryAt.Some? <==> k < |Schedule(before.dunningReason.value)|)
               && (after.nextRetryAt.Some? ==> once.sub.status == PastDue)
               && after.calls == before.calls +
                    [ProviderCall(before.attemptCount, before.amountDue, Returned(Pending, None), true, now)]
  {
    hide OpenOrAdvanceDunning, TransitionInvoice, RecordCharge, Dunned, CountRetries, NextRetryGapDays;
    var inv := acc.invoices[i];
    var charged := RecordCharge(inv, inv.amountDue, Returned(Pending, None), inv.attemptCount, true, now);
    PendingInvoice(inv, now);
    DunningOutcome(SetInvoice(acc, i, charged), i, None, now);
    DunningKeepsTerms(SetInvoice(acc, i, charged), i, None, now);
  }

  lemma PendingInvoice(inv: Invoice, now: Instant)
    requires inv.status == Open && inv.dunningReason.Some?
    ensures var charged := RecordCharge(inv, inv.amountDue, Returned(Pending, None), inv.attemptCount, true, now);
            var post := Dunned(charged, None, now);
            && post.status == Open && post.attemptCount == inv.attemptCount + 1 && post.amountDue == inv.amountDue
            && post.calls == inv.calls +
                 [ProviderCall(inv.attemptCount, inv.amountDue, Returned(Pending, None), true, now)]
            && (post.nextRetryAt.Some? <==> CountRetries(inv.attempts) + 1 < |Schedule(inv.dunningReason.value)|)
  {
    hide CountRetries, HardFailures, ChargeKeys;
    CountingAppends(inv.attempts,
      PaymentAttempt(Pending, None, ChargeKey(inv.attemptCount), inv.attemptCount, true));
  }

  lemma RetryRecords(acc: Account, i: nat, charge: Charge, now: Instant)
    requires i < |acc.invoices| && RetryDue(acc.invoices[i], now)
    requires acc.sub.status == PastDue && acc.sub.hasCard && charge == Returned(Success, None)
    ensures var post := Retry(acc, i, charge, now).account;
            var inv := acc.invoices[i];
            && i < |post.invoices|
            && post.invoices[i].calls ==
                 inv.calls + [ProviderCall(inv.attemptCount, inv.amountDue, charge, true, now)]
  {}
}
