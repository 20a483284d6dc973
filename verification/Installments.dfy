// Installment plans: the invoices created up front, and when the plan completes.
module Installments {
  import opened Prelude
  import opened Calendar
  import opened RetryPolicy
  import opened Model
  import opened Billing
  import opened Changes
  import Dunning
  import Lifecycle

  // The i-th invoice of the creation loop of create_subscription_flow.
  function ScheduledInvoice(plan: Plan, now: Instant, i: nat): Invoice {
    var due := ScheduleOffset(now, plan.interval, i, plan.intervalCount);
    NewInvoice(plan.amount, Some(due),
      Some(ScheduleOffset(now, plan.interval, i + 1, plan.intervalCount)), Some(due))
  }

  function ScheduledInvoices(plan: Plan, now: Instant, count: int): seq<Invoice> {
    if count <= 0 then [] else ScheduledInvoices(plan, now, count - 1) + [ScheduledInvoice(plan, now, count - 1)]
  }

  function InstallmentCount(plan: Plan): int {
    if plan.installmentsCount.GetOr(0) != 0 then plan.installmentsCount.value else 1
  }

  // The days of a trial, if the subscription starts with one.
  function TrialDays(requested: bool, planDays: Option<int>): Option<int> {
    if !requested && planDays.GetOr(0) <= 0 then None
    else Some(if planDays.GetOr(0) != 0 then planDays.value else 14)
  }

  // The subscription that create_subscription_flow stores.
  function CreatedSubscription(plan: Plan, hasCard: bool, bankTransfer: bool, trialRequested: bool,
                               trialPeriodDays: Option<int>, now: Instant): Subscription {
    var trial := if bankTransfer then None else TrialDays(trialRequested, trialPeriodDays);
    Subscription(
      if plan.installmentsCount.GetOr(0) != 0 then Installment else Recurring,
      if bankTransfer then Active else if trial.Some? then Trialing else Incomplete,
      plan, hasCard,
      if trial.Some? then Some(now) else None, if trial.Some? then Some(now + Days(trial.value)) else None,
      None, now, [])
  }

  // A subscription starts active by bank transfer, with a trial when one is asked for or
  // offered, and incomplete otherwise. The trial is its period and lasts the days the
  // plan says, or 14; no other subscription starts with a period.
  lemma CreationCases(plan: Plan, hasCard: bool, bankTransfer: bool, trialRequested: bool,
                      trialPeriodDays: Option<int>, now: Instant)
    ensures var sub := CreatedSubscription(plan, hasCard, bankTransfer, trialRequested, trialPeriodDays, now);
            && (sub.status == Active <==> bankTransfer)
            && (sub.status == Trialing <==>
                  !bankTransfer && (trialRequested || exists d :: trialPeriodDays == Some(d) && d > 0))
            && (sub.status in {Active, Trialing, Incomplete})
            && (sub.kind == Installment <==> exists n :: plan.installmentsCount == Some(n) && n != 0)
            && (if sub.status == Trialing then
                  && sub.periodStart == Some(now)
                  && (trialPeriodDays in {None, Some(0)} ==> sub.periodEnd == Some(now + Days(14)))
                  && (forall d :: trialPeriodDays == Some(d) && d != 0 ==> sub.periodEnd == Some(now + Days(d)))
                else sub.periodStart.None? && sub.periodEnd.None?)
            && sub.plan == plan && sub.hasCard == hasCard && sub.canceledAt.None? && sub.audit == []
  {
    if trialPeriodDays.Some? { assert trialPeriodDays == Some(trialPeriodDays.value); }
    if plan.installmentsCount.Some? { assert plan.installmentsCount == Some(plan.installmentsCount.value); }
  }

  // A bank transfer subscription has no period and no invoice, so no run without a
  // plan change ever bills it, although it is active.
  lemma BankTransferIsNeverBilled(plan: Plan, hasCard: bool, trialRequested: bool, trialPeriodDays: Option<int>,
                                  created: Instant, steps: seq<Timed>)
    requires forall k :: 0 <= k < |steps| ==> !steps[k].step.ChangePlanStep?
    ensures var sub := CreatedSubscription(plan, hasCard, true, trialRequested, trialPeriodDays, created);
            sub.status == Active && Run(Account(sub, []), steps).invoices == []
  {
    hide Run;
    UnbilledStays(Account(CreatedSubscription(plan, hasCard, true, trialRequested, trialPeriodDays, created), []), steps);
  }

  predicate Unbilled(acc: Account) {
    acc.invoices == [] && acc.sub.periodEnd.None? && acc.sub.status != Trialing
  }

  lemma {:induction false} UnbilledStays(acc: Account, steps: seq<Timed>)
    requires Unbilled(acc)
    requires forall k :: 0 <= k < |steps| ==> !steps[k].step.ChangePlanStep?
    ensures Unbilled(Run(acc, steps))
  {
    hide Next, Unbilled;
    if steps != [] {
      var n := |steps| - 1;
      UnbilledStays(acc, steps[..n]);
      StepKeepsUnbilled(Run(acc, steps[..n]), steps[n].step, steps[n].now);
    }
  }

  lemma StepKeepsUnbilled(acc: Account, step: Step, now: Instant)
    requires Unbilled(acc) && !step.ChangePlanStep?
    ensures Unbilled(Next(acc, step, now))
  {}

  lemma {:induction false} ScheduledAt(plan: Plan, now: Instant, count: int)
    ensures var s := ScheduledInvoices(plan, now, count);
            && |s| == (if count < 0 then 0 else count)
            && (forall i :: 0 <= i < |s| ==> s[i] == ScheduledInvoice(plan, now, i))
  {
    hide ScheduledInvoice;
    if count > 0 { ScheduledAt(plan, now, count - 1); }
  }

  // A subscription as created is a fresh start for every theorem about runs.
  lemma CreatedIsFresh(sub: Subscription, now: Instant, count: int)
    ensures Dunning.Fresh(Account(sub, ScheduledInvoices(sub.plan, now, count)))
  {
    hide ScheduledInvoices, ScheduleOffset;
    ScheduledAt(sub.plan, now, count);
  }

  // The creation loop issues exactly `count` open invoices of the plan's amount, the
  // first one due at once; due dates strictly increase and each period ends where
  // the next one starts.
  lemma InstallmentPlanShape(plan: Plan, now: Instant, count: int)
    requires count >= 1 && plan.intervalCount >= 1
    ensures var s := ScheduledInvoices(plan, now, count);
            && |s| == count
            && s[0].dueDate == Some(now)
            && (forall i :: 0 <= i < count ==>
                  Untouched(s[i]) && s[i].amountDue == plan.amount &&
                  s[i].dueDate.Some? && s[i].dueDate == s[i].periodStart && s[i].periodEnd.Some?)
            && (forall i :: 0 <= i < count ==>
                  && s[i].dueDate == Some(AdvanceBillingPeriod(now, plan.interval, i * plan.intervalCount))
                  && s[i].periodEnd == Some(AdvanceBillingPeriod(now, plan.interval, (i + 1) * plan.intervalCount)))
            && (forall i, j :: 0 <= i < j < count ==> s[i].dueDate.value < s[j].dueDate.value)
            && (forall i :: 0 < i < count ==> s[i - 1].periodEnd == s[i].periodStart)
  {
    hide AdvanceBillingPeriod;
    hide ScheduledInvoices, ScheduleOffset;
    var s := ScheduledInvoices(plan, now, count);
    ScheduledAt(plan, now, count);
    IntervalTablesAgree(now, plan.interval, plan.intervalCount, 0);
    forall i | 0 <= i < count
      ensures s[i].dueDate == Some(AdvanceBillingPeriod(now, plan.interval, i * plan.intervalCount))
      ensures s[i].periodEnd == Some(AdvanceBillingPeriod(now, plan.interval, (i + 1) * plan.intervalCount))
    {
      IntervalTablesAgree(now, plan.interval, plan.intervalCount, i);
      IntervalTablesAgree(now, plan.interval, plan.intervalCount, i + 1);
    }
    forall i, j | 0 <= i < j < count ensures s[i].dueDate.value < s[j].dueDate.value {
      OffsetsIncrease(now, plan, i, j);
    }
  }

  lemma {:induction false} OffsetsIncrease(now: Instant, plan: Plan, i: nat, j: nat)
    requires i < j && plan.intervalCount >= 1
    ensures ScheduleOffset(now, plan.interval, i, plan.intervalCount) <
            ScheduleOffset(now, plan.interval, j, plan.intervalCount)
    decreases j - i
  {
    hide ScheduleOffset;
    ScheduleIncreasing(now, plan.interval, plan.intervalCount, j - 1);
    if i < j - 1 { OffsetsIncrease(now, plan, i, j - 1); }
  }

  // ------------------------------------------------------------------ completion

  // Paying the last outstanding invoice of an installment subscription always
  // collects it; it completes the subscription exactly when that is active, and
  // otherwise raises with the payment already committed.
  lemma LastInstallmentCompletesIff(acc: Account, i: nat, now: Instant)
    requires i < |acc.invoices| && acc.invoices[i].status == Open
    requires acc.sub.kind == Installment && acc.sub.status != Completed
    requires forall j :: 0 <= j < |acc.invoices| && j != i ==> !Outstanding(acc.invoices[j])
    ensures var paid := TransitionInvoice(acc, i, Paid, now);
            && paid.account.invoices == acc.invoices[i := Settled(acc.invoices[i], now)]
            && paid.account.invoices[i].status == Paid
            && (paid.account.sub.status == Completed <==> acc.sub.status == Active)
            && (paid.raised <==> acc.sub.status != Active)
            && (paid.raised ==> paid.account.sub == acc.sub)
  {}

  // While another invoice is outstanding, payment neither completes nor raises.
  lemma EarlierInstallmentNeverCompletes(acc: Account, i: nat, k: nat, now: Instant)
    requires i < |acc.invoices| && k < |acc.invoices| && i != k
    requires acc.invoices[i].status == Open && Outstanding(acc.invoices[k])
    ensures var paid := TransitionInvoice(acc, i, Paid, now);
            !paid.raised && paid.account.sub == acc.sub && paid.account.invoices[i].status == Paid
  {
    assert Outstanding(TransitionInvoice(acc, i, Paid, now).account.invoices[k]);
  }

  predicate OthersSettled(acc: Account, i: nat) {
    forall j :: 0 <= j < |acc.invoices| && j != i ==> !Outstanding(acc.invoices[j])
  }

  lemma OthersSettledBy(a: Account, b: Account, i: nat)
    requires i < |a.invoices| && |b.invoices| == |a.invoices|
    requires forall j :: 0 <= j < |a.invoices| && j != i ==> b.invoices[j] == a.invoices[j]
    ensures OthersSettled(a, i) <==> OthersSettled(b, i)
  {}

  // Paying an open invoice raises exactly when it is the last outstanding one of an
  // installment subscription that is neither active nor completed, and completes the
  // subscription exactly when it is the last one of an active installment subscription.
  lemma PaymentDecides(acc: Account, i: nat, now: Instant)
    requires i < |acc.invoices| && acc.invoices[i].status == Open
    ensures var paid := TransitionInvoice(acc, i, Paid, now);
            && (paid.raised <==> acc.sub.kind == Installment && acc.sub.status !in {Active, Completed} && OthersSettled(acc, i))
            && paid.account.sub.status ==
                 (if acc.sub.kind == Installment && acc.sub.status == Active && OthersSettled(acc, i)
                  then Completed else acc.sub.status)
  {
    PayingKeepsOthers(acc, i, now);
    if acc.sub.kind == Installment && acc.sub.status != Completed {
      if OthersSettled(acc, i) {
        LastInstallmentCompletesIff(acc, i, now);
      } else {
        var k :| 0 <= k < |acc.invoices| && k != i && Outstanding(acc.invoices[k]);
        EarlierInstallmentNeverCompletes(acc, i, k, now);
      }
    }
  }

  lemma PaymentCompletesLast(acc: Account, i: nat, target: InvoiceStatus, now: Instant)
    requires i < |acc.invoices|
    ensures var post := TransitionInvoice(acc, i, target, now).account;
            && |post.invoices| == |acc.invoices|
            && (post.sub.status == Completed && acc.sub.status != Completed ==> NothingOutstanding(post))
            && post.sub.status in {acc.sub.status, Completed}
  {}

  // Every way into completed passes through the payment of the last invoice.
  lemma StepCompletes(acc: Account, step: Step, now: Instant)
    requires acc.sub.status != Completed && Next(acc, step, now).sub.status == Completed
    ensures NothingOutstanding(Next(acc, step, now))
  {
    hide TransitionInvoice, OpenOrAdvanceDunning, RecordCharge, NothingOutstanding, ProrateChange, Renew, Retry,
      ChangePlan, WebhookSucceeded;
    match step
    case RenewStep(charge) => if RenewalDue(acc, now) { RenewNeverCompletes(acc, charge, now); }
    case RetryStep(i, charge) =>
      if i < |acc.invoices| && RetryDue(acc.invoices[i], now) { RetryNeverCompletes(acc, i, charge, now); }
    case InstallmentStep(i, charge) =>
      if i < |acc.invoices| { InstallmentCompletes(acc, i, charge, now); }
    case ChangePlanStep(newPlan, charge) => PlanChangeCompletes(acc, newPlan, charge, now);
    case WebhookSuccessStep(i, eventId) => if i < |acc.invoices| { WebhookCompletes(acc, i, eventId, now); }
    case WebhookFailureStep(i, eventId) =>
      if i < |acc.invoices| {
        DunningOutcome(SetInvoice(acc, i, NotePayment(acc.invoices[i], Failed, Some(CardDeclined), eventId)),
          i, Some(CardDeclined), now);
      }
    case _ =>
  }

  lemma ChargeRenewalNeverCompletes(acc: Account, i: nat, charge: Charge, now: Instant)
    requires i < |acc.invoices| && acc.sub.kind == Recurring && acc.sub.periodEnd.Some? && acc.sub.status == Active
    requires acc.invoices[i].status == Open
    ensures ChargeRenewal(acc, i, charge, now).account.sub.status != Completed
  {
    hide TransitionInvoice, OpenOrAdvanceDunning, RecordCharge;
    var charged := SetInvoice(acc, i, RecordCharge(acc.invoices[i], acc.sub.plan.amount, charge, 0, false, now));
    RecordKeepsStatus(acc.invoices[i], acc.sub.plan.amount, charge, 0, false, now);
    PayingKeepsOthers(charged, i, now);
    DunningOutcome(acc, i, Some(InvalidPaymentMethod), now);
    if charge.Returned? { DunningOutcome(charged, i, charge.reason, now); }
  }

  lemma RenewNeverCompletes(acc: Account, charge: Charge, now: Instant)
    requires RenewalDue(acc, now)
    ensures Renew(acc, charge, now).account.sub.status != Completed
  {
    hide ChargeRenewal;
    OpenForPeriodIndices(acc.invoices, acc.sub.periodStart);
    var existing := OpenForPeriod(acc.invoices, acc.sub.periodStart);
    if |existing| == 1 {
      assert existing[0] in existing;
      ChargeRenewalNeverCompletes(acc, existing[0], charge, now);
    } else if |existing| == 0 {
      var billed := acc.(invoices := acc.invoices +
        [NewInvoice(acc.sub.plan.amount, acc.sub.periodStart, acc.sub.periodEnd, None)]);
      ChargeRenewalNeverCompletes(billed, |acc.invoices|, charge, now);
    }
  }

  lemma RetryNeverCompletes(acc: Account, i: nat, charge: Charge, now: Instant)
    requires i < |acc.invoices| && RetryDue(acc.invoices[i], now) && acc.sub.status != Completed
    ensures Retry(acc, i, charge, now).account.sub.status != Completed
  {
    hide TransitionInvoice, OpenOrAdvanceDunning, RecordCharge;
    var inv := acc.invoices[i];
    var charged := SetInvoice(acc, i, RecordCharge(inv, inv.amountDue, charge, inv.attemptCount, true, now));
    RecordKeepsStatus(inv, inv.amountDue, charge, inv.attemptCount, true, now);
    PayingKeepsOthers(charged, i, now);
    if charge.Returned? { DunningOutcome(charged, i, charge.reason, now); }
  }

  lemma InstallmentCompletes(acc: Account, i: nat, charge: Charge, now: Instant)
    requires i < |acc.invoices| && acc.sub.status != Completed
    requires ChargeInstallment(acc, i, charge, now).account.sub.status == Completed
    ensures NothingOutstanding(ChargeInstallment(acc, i, charge, now).account)
  {
    hide TransitionInvoice, OpenOrAdvanceDunning, RecordCharge, NothingOutstanding;
    var inv := acc.invoices[i];
    var charged := SetInvoice(acc, i, RecordCharge(inv, inv.amountDue, charge, inv.attemptCount, false, now));
    PaymentCompletesLast(charged, i, Paid, now);
    DunningOutcome(acc, i, Some(InvalidPaymentMethod), now);
    if charge.Returned? { DunningOutcome(charged, i, charge.reason, now); }
  }

  lemma PlanChangeCompletes(acc: Account, newPlan: Plan, charge: Charge, now: Instant)
    requires acc.sub.status != Completed && ChangePlan(acc, newPlan, charge, now).account.sub.status == Completed
    ensures NothingOutstanding(ChangePlan(acc, newPlan, charge, now).account)
  {
    hide TransitionInvoice, OpenOrAdvanceDunning, RecordCharge, NothingOutstanding, ProrateChange;
    if PlanChangeAllowed(acc, newPlan) {
      var proration := ProrateChange(acc.sub, newPlan, now);
      var inv := NewInvoice(proration.netMinor, Some(now), acc.sub.periodEnd, None).(lineItems := proration.lineItems);
      var i := |acc.invoices|;
      var swapped := Account(acc.sub.(plan := newPlan, updatedAt := now), acc.invoices + [inv]);
      var charged := SetInvoice(swapped, i,
        RecordCharge(inv, proration.netMinor, charge, inv.attemptCount, false, now));
      PaymentCompletesLast(swapped, i, Paid, now);
      PaymentCompletesLast(charged, i, Paid, now);
      DunningOutcome(swapped, i, Some(InvalidPaymentMethod), now);
      if charge.Returned? { DunningOutcome(charged, i, charge.reason, now); }
    }
  }

  lemma WebhookCompletes(acc: Account, i: nat, eventId: string, now: Instant)
    requires i < |acc.invoices| && acc.sub.status != Completed
    requires WebhookSucceeded(acc, i, eventId, now).account.sub.status == Completed
    ensures NothingOutstanding(WebhookSucceeded(acc, i, eventId, now).account)
  {
    hide TransitionInvoice;
    var inv := acc.invoices[i];
    var noted := SetInvoice(acc, i, NotePayment(inv, Success, None, eventId));
    PaymentCompletesLast(noted, i, Paid, now);
  }

  lemma NothingOutstandingStays(acc: Account, step: Step, now: Instant)
    requires NothingOutstanding(acc)
    requires |Next(acc, step, now).invoices| == |acc.invoices|
    ensures NothingOutstanding(Next(acc, step, now))
  {
    hide Next, Lifecycle.SubscriptionFollows;
    Lifecycle.StepFollows(acc, step, now);
    var post := Next(acc, step, now);
    forall j | 0 <= j < |post.invoices| ensures !Outstanding(post.invoices[j]) {
      var a, b := acc.invoices[j], post.invoices[j];
      assert Lifecycle.InvoiceFollows(a, b);
      assert InvoiceTerminal(a.status);
      Lifecycle.TerminalEndsReplay(a.status, b.audit[|a.audit|..], InvoiceMoveAllowed);
    }
  }

  // Invoices are issued only by renewals and plan changes of active subscriptions.
  lemma OnlyBillingIssues(acc: Account, step: Step, now: Instant)
    requires acc.sub.status != Active || !(step.RenewStep? || step.ChangePlanStep?)
    ensures |Next(acc, step, now).invoices| == |acc.invoices|
  {
    hide OpenOrAdvanceDunning, RecordCharge, ChangePlan, TransitionInvoice;
    match step
    case RetryStep(i, charge) =>
      if i < |acc.invoices| && RetryDue(acc.invoices[i], now) { var _ := RetryChange(acc, i, charge, now); }
    case InstallmentStep(i, charge) =>
      if i < |acc.invoices| && acc.invoices[i].status == Open { var _, _ := InstallmentChange(acc, i, charge, now); }
    case ChangePlanStep(newPlan, charge) => PlanChangeRefused(acc, newPlan, charge, now);
    case WebhookSuccessStep(i, eventId) =>
      if i < |acc.invoices| { var _, _ := WebhookPaidChange(acc, i, eventId, now); }
    case WebhookFailureStep(i, eventId) =>
      if i < |acc.invoices| {
        DunningOutcome(SetInvoice(acc, i, NotePayment(acc.invoices[i], Failed, Some(CardDeclined), eventId)),
          i, Some(CardDeclined), now);
      }
    case _ =>
  }

  lemma PlanChangeRefused(acc: Account, newPlan: Plan, charge: Charge, now: Instant)
    requires acc.sub.status != Active
    ensures ChangePlan(acc, newPlan, charge, now) == Outcome(acc, true)
  {}

  // In every run: once completed, a subscription has nothing left to collect.
  lemma {:induction false} CompletedHasNothingOutstanding(acc: Account, steps: seq<Timed>)
    requires acc.sub.status == Completed ==> NothingOutstanding(acc)
    ensures Run(acc, steps).sub.status == Completed ==> NothingOutstanding(Run(acc, steps))
  {
    hide Next, NothingOutstanding;
    if steps != [] {
      var n := |steps| - 1;
      var before := Run(acc, steps[..n]);
      CompletedHasNothingOutstanding(acc, steps[..n]);
      if Run(acc, steps).sub.status == Completed {
        if before.sub.status == Completed {
          OnlyBillingIssues(before, steps[n].step, steps[n].now);
          NothingOutstandingStays(before, steps[n].step, steps[n].now);
        } else {
          StepCompletes(before, steps[n].step, steps[n].now);
        }
      }
    }
  }

  // An installment subscription whose last invoice was collected while it was not
  // active is stranded: short of a plan change, no run completes it any more,
  // although nothing is left to collect.
  lemma {:induction false} StrandedNeverCompletes(acc: Account, steps: seq<Timed>)
    requires acc.sub.kind == Installment && acc.sub.status != Completed && NothingOutstanding(acc)
    requires forall k :: 0 <= k < |steps| ==> !steps[k].step.ChangePlanStep?
    ensures var post := Run(acc, steps);
            post.sub.kind == Installment && post.sub.status != Completed && NothingOutstanding(post)
  {
    hide Next, NothingOutstanding;
    if steps != [] {
      var n := |steps| - 1;
      StrandedNeverCompletes(acc, steps[..n]);
      StrandedStays(Run(acc, steps[..n]), steps[n].step, steps[n].now);
    }
  }

  lemma StrandedStays(acc: Account, step: Step, now: Instant)
    requires acc.sub.kind == Installment && acc.sub.status != Completed && NothingOutstanding(acc)
    requires !step.ChangePlanStep?
    ensures var post := Next(acc, step, now);
            post.sub.kind == Installment && post.sub.status != Completed && NothingOutstanding(post)
  {
    StrandedStaysIncomplete(acc, step, now);
    NothingOutstandingStays(acc, step, now);
  }

  lemma StrandedStaysIncomplete(acc: Account, step: Step, now: Instant)
    requires acc.sub.kind == Installment && acc.sub.status != Completed && NothingOutstanding(acc)
    requires !step.ChangePlanStep?
    ensures var post := Next(acc, step, now);
            post.sub.kind == Installment && post.sub.status != Completed && |post.invoices| == |acc.invoices|
  {
    hide OpenOrAdvanceDunning, Retry, ChargeInstallment, ChangePlan, Renew, TransitionInvoice;
    match step
    case WebhookSuccessStep(i, eventId) =>
      if i < |acc.invoices| && acc.invoices[i].status != Paid {
        CannotPay(SetInvoice(acc, i, NotePayment(acc.invoices[i], Success, None, eventId)), i, now);
      }
    case WebhookFailureStep(i, eventId) =>
      if i < |acc.invoices| {
        DunningOutcome(SetInvoice(acc, i, NotePayment(acc.invoices[i], Failed, Some(CardDeclined), eventId)),
          i, Some(CardDeclined), now);
      }
    case _ =>
  }

  // Collecting the last installment by a dunning retry strands the subscription: it
  // stays past due with every invoice paid.
  lemma LastInstallmentByRetryStrands(acc: Account, i: nat, charge: Charge, now: Instant)
    requires i < |acc.invoices| && RetryDue(acc.invoices[i], now)
    requires acc.sub.kind == Installment && acc.sub.status == PastDue && acc.sub.hasCard
    requires forall j :: 0 <= j < |acc.invoices| && j != i ==> !Outstanding(acc.invoices[j])
    requires charge.Returned? && charge.status == Success
    ensures var post := Retry(acc, i, charge, now);
            && post.raised && post.account.sub == acc.sub
            && |post.account.invoices| == |acc.invoices| && post.account.invoices[i].status == Paid
            && NothingOutstanding(post.account)
  {
    hide RecordCharge, TransitionInvoice;
    var inv := acc.invoices[i];
    var charged := SetInvoice(acc, i, RecordCharge(inv, inv.amountDue, charge, inv.attemptCount, true, now));
    RecordKeepsStatus(inv, inv.amountDue, charge, inv.attemptCount, true, now);
    LastInstallmentCompletesIff(charged, i, now);
  }

  // ------------------------------------------------------------ a plan from start to end

  // The installment worker collecting invoice 1, 2, ... at the given instants.
  function CollectionSteps(times: seq<Instant>): seq<Timed> {
    if times == [] then []
    else
      var n := |times| - 1;
      CollectionSteps(times[..n]) + [Timed(InstallmentStep(n + 1, Returned(Success, None)), times[n])]
  }

  // The first m invoices are paid, those after the first by one charge of what they
  // bill; the others are as they were issued.
  ghost predicate PaidUpTo(issued: seq<Invoice>, acc: Account, m: nat, times: seq<Instant>) {
    && m <= |issued| == |acc.invoices| && |times| == |issued| - 1
    && acc.sub.kind == Installment && acc.sub.hasCard
    && acc.sub.status == (if m == |issued| then Completed else Active)
    && (forall j :: 0 <= j < m ==> acc.invoices[j].status == Paid)
    && (forall j :: 1 <= j < m ==> CollectedAt(acc.invoices[j], issued[j].amountDue, times[j - 1]))
    && (forall j :: m <= j < |issued| ==> acc.invoices[j] == issued[j])
  }

  predicate CollectedAt(inv: Invoice, amount: int, at: Instant) {
    inv.calls == [ProviderCall(0, amount, Returned(Success, None), false, at)]
  }

  lemma CollectingUntouched(inv: Invoice, now: Instant)
    requires Untouched(inv)
    ensures var charged := RecordCharge(inv, inv.amountDue, Returned(Success, None), inv.attemptCount, false, now);
            charged.status == Open && CollectedAt(Settled(charged, now), inv.amountDue, now)
  {}

  lemma CollectNext(issued: seq<Invoice>, acc: Account, m: nat, times: seq<Instant>)
    requires PaidUpTo(issued, acc, m, times) && 1 <= m < |issued|
    requires InstallmentDue(issued[m], times[m - 1])
    requires forall j :: m <= j < |issued| ==> Untouched(issued[j])
    ensures PaidUpTo(issued, Next(acc, InstallmentStep(m, Returned(Success, None)), times[m - 1]), m + 1, times)
  {
    hide TransitionInvoice, Settled, RecordCharge;
    var now, inv := times[m - 1], issued[m];
    var charged := RecordCharge(inv, inv.amountDue, Returned(Success, None), inv.attemptCount, false, now);
    CollectingUntouched(inv, now);
    PayingKeepsOthers(SetInvoice(acc, m, charged), m, now);
    if m + 1 < |issued| {
      EarlierInstallmentNeverCompletes(SetInvoice(acc, m, charged), m, m + 1, now);
    } else {
      LastInstallmentCompletesIff(SetInvoice(acc, m, charged), m, now);
    }
    PaymentKeepsTerms(SetInvoice(acc, m, charged), m, now);
  }

  lemma {:induction false} CollectAll(issued: seq<Invoice>, acc: Account, m: nat, times: seq<Instant>)
    requires issued != [] && PaidUpTo(issued, acc, 1, times) && m <= |times|
    requires forall j :: 1 <= j < |issued| ==> Untouched(issued[j]) && InstallmentDue(issued[j], times[j - 1])
    ensures PaidUpTo(issued, Run(acc, CollectionSteps(times[..m])), m + 1, times)
  {
    hide Next, PaidUpTo, Untouched, InstallmentDue;
    if m > 0 {
      CollectAll(issued, acc, m - 1, times);
      assert times[..m][..m - 1] == times[..m - 1];
      var prior := CollectionSteps(times[..m - 1]);
      var last := Timed(InstallmentStep(m, Returned(Success, None)), times[m - 1]);
      assert (prior + [last])[..|prior|] == prior;
      SizesOf(issued, acc, times);
      CollectNext(issued, Run(acc, prior), m, times);
    }
  }

  lemma SizesOf(issued: seq<Invoice>, acc: Account, times: seq<Instant>)
    requires PaidUpTo(issued, acc, 1, times)
    ensures |times| == |issued| - 1
  {}

  // The first payment activates a plan of two or more installments; of a plan of one
  // it collects the invoice and raises.
  lemma FirstInstallment(acc: Account, eventId: string, now: Instant)
    requires acc.sub.kind == Installment && acc.sub.status == Incomplete && acc.invoices != []
    requires forall j :: 0 <= j < |acc.invoices| ==> acc.invoices[j].status == Open
    ensures var post := Next(acc, WebhookSuccessStep(0, eventId), now);
            && post.sub.kind == Installment && post.sub.hasCard == acc.sub.hasCard
            && post.sub.status == (if |acc.invoices| >= 2 then Active else Incomplete)
            && |post.invoices| == |acc.invoices| && post.invoices[0].status == Paid
            && (forall j :: 1 <= j < |acc.invoices| ==> post.invoices[j] == acc.invoices[j])
  {
    hide TransitionInvoice, StartPeriod, Settled, NothingOutstanding, Outstanding;
    var noted := SetInvoice(acc, 0, NotePayment(acc.invoices[0], Success, None, eventId));
    PayingKeepsOthers(noted, 0, now);
    if |acc.invoices| >= 2 {
      EarlierInstallmentNeverCompletes(noted, 0, 1, now);
    } else {
      LastInstallmentCompletesIff(noted, 0, now);
    }
    StartedKeepsTerms(acc.sub, now);
  }

  lemma StartedKeepsTerms(sub: Subscription, now: Instant)
    ensures var s := StartPeriod(sub, now); s.kind == sub.kind && s.hasCard == sub.hasCard && s.status == sub.status
  {}

  // An installment plan from start to end: the first invoice is paid at checkout, which
  // leaves a card on file, and each of the others is collected by the worker at or
  // after its due date. Then
  // every invoice is paid, each of the others by a single charge of the plan's amount,
  // and the subscription is completed if and only if the plan has at least two
  // installments.
  lemma PlanPaidOnTimeCompletesIff(sub: Subscription, created: Instant, count: int, eventId: string,
                                   activated: Instant, linked: bool, times: seq<Instant>)
    requires sub.kind == Installment && sub.status == Incomplete
    requires count >= 1 && |times| == count - 1
    requires forall j :: 1 <= j < count ==>
               times[j - 1] >= ScheduleOffset(created, sub.plan.interval, j, sub.plan.intervalCount)
    ensures var start := Account(sub, ScheduledInvoices(sub.plan, created, count));
            |start.invoices| == count &&
            var first := Next(start, WebhookSuccessStep(0, eventId), activated);
            var post := Run(Next(first, CardStep(true, linked), activated), CollectionSteps(times));
            && |post.invoices| == count
            && (forall j :: 0 <= j < count ==> post.invoices[j].status == Paid)
            && (forall j :: 1 <= j < count ==> CollectedAt(post.invoices[j], sub.plan.amount, times[j - 1]))
            && (post.sub.status == Completed <==> count >= 2)
  {
    hide ScheduledInvoices, ScheduleOffset, Next, Run;
    ScheduledAt(sub.plan, created, count);
    var issued := ScheduledInvoices(sub.plan, created, count);
    var start := Account(sub, issued);
    FirstInstallment(start, eventId, activated);
    var first := Next(start, WebhookSuccessStep(0, eventId), activated);
    var carded := Next(first, CardStep(true, linked), activated);
    CardChangesNothingElse(first, linked, activated);
    if count == 1 {
      assert CollectionSteps(times) == [];
      NoSteps(carded);
    } else {
      assert times[..|times|] == times;
      CollectAll(issued, carded, |times|, times);
    }
  }

  lemma CardChangesNothingElse(acc: Account, linked: bool, now: Instant)
    ensures var post := Next(acc, CardStep(true, linked), now);
            && post.invoices == acc.invoices && post.sub.hasCard
            && post.sub.kind == acc.sub.kind && post.sub.status == acc.sub.status
  {}

  lemma NoSteps(acc: Account)
    ensures Run(acc, []) == acc
  {}
}
