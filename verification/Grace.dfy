// Every change of a subscription's row is stamped, so the grace timer counts from the
// revocation; and every change of its status has its trigger.
module Grace {
  import opened Prelude
  import opened RetryPolicy
  import opened Model
  import opened Billing
  import opened Changes
  import opened Outcomes
  import Calendar

  // -------------------------------------------------------------------- stamping

  // A row that changes, other than by a card that appears or goes away on its own, is
  // stamped with the instant of the change.
  predicate Stamped(a: Subscription, b: Subscription, now: Instant) {
    b.updatedAt == now || b == a.(hasCard := b.hasCard)
  }

  lemma DunningStamps(acc: Account, i: nat, reason: Option<FailureReason>, now: Instant)
    requires i < |acc.invoices|
    ensures var post := OpenOrAdvanceDunning(acc, i, reason, now).sub;
            post == acc.sub || post.updatedAt == now
  {
    hide CountRetries, NextRetryGapDays;
  }

  lemma PaymentStamps(acc: Account, i: nat, now: Instant)
    requires i < |acc.invoices|
    ensures var post := TransitionInvoice(acc, i, Paid, now).account.sub;
            post == acc.sub || post.updatedAt == now
  {
    hide NothingOutstanding;
  }

  lemma RenewStamps(acc: Account, charge: Charge, now: Instant)
    requires RenewalDue(acc, now)
    ensures Stamped(acc.sub, Renew(acc, charge, now).account.sub, now)
  {
    hide ChargeRenewal;
    OpenForPeriodIndices(acc.invoices, acc.sub.periodStart);
    var existing := OpenForPeriod(acc.invoices, acc.sub.periodStart);
    if |existing| == 1 {
      assert existing[0] in existing;
      ChargeRenewalStamps(acc, existing[0], charge, now);
    } else if |existing| == 0 {
      ChargeRenewalStamps(acc.(invoices := acc.invoices +
        [NewInvoice(acc.sub.plan.amount, acc.sub.periodStart, acc.sub.periodEnd, None)]), |acc.invoices|, charge, now);
    }
  }

  lemma ChargeRenewalStamps(acc: Account, i: nat, charge: Charge, now: Instant)
    requires i < |acc.invoices| && acc.sub.status == Active && acc.sub.kind == Recurring && acc.sub.periodEnd.Some?
    ensures Stamped(acc.sub, ChargeRenewal(acc, i, charge, now).account.sub, now)
  {
    hide OpenOrAdvanceDunning, TransitionInvoice, RecordCharge;
    var charged := SetInvoice(acc, i, RecordCharge(acc.invoices[i], acc.sub.plan.amount, charge, 0, false, now));
    DunningStamps(acc, i, Some(InvalidPaymentMethod), now);
    PaymentStamps(charged, i, now);
    if charge.Returned? { DunningStamps(charged, i, charge.reason, now); }
  }

  lemma RetryStamps(acc: Account, i: nat, charge: Charge, now: Instant)
    requires i < |acc.invoices|
    ensures Stamped(acc.sub, Retry(acc, i, charge, now).account.sub, now)
  {
    hide OpenOrAdvanceDunning, TransitionInvoice, RecordCharge;
    var inv := acc.invoices[i];
    var charged := SetInvoice(acc, i, RecordCharge(inv, inv.amountDue, charge, inv.attemptCount, true, now));
    PaymentStamps(charged, i, now);
    if charge.Returned? { DunningStamps(charged, i, charge.reason, now); }
  }

  lemma InstallmentStamps(acc: Account, i: nat, charge: Charge, now: Instant)
    requires i < |acc.invoices|
    ensures Stamped(acc.sub, ChargeInstallment(acc, i, charge, now).account.sub, now)
  {
    hide OpenOrAdvanceDunning, TransitionInvoice, RecordCharge;
    var inv := acc.invoices[i];
    var charged := SetInvoice(acc, i, RecordCharge(inv, inv.amountDue, charge, inv.attemptCount, false, now));
    DunningStamps(acc, i, Some(InvalidPaymentMethod), now);
    PaymentStamps(charged, i, now);
    if charge.Returned? { DunningStamps(charged, i, charge.reason, now); }
  }

  lemma PlanChangeStamps(acc: Account, newPlan: Plan, charge: Charge, now: Instant)
    ensures Stamped(acc.sub, ChangePlan(acc, newPlan, charge, now).account.sub, now)
  {
    hide OpenOrAdvanceDunning, TransitionInvoice, RecordCharge, ProrateChange;
    if PlanChangeAllowed(acc, newPlan) {
      var proration := ProrateChange(acc.sub, newPlan, now);
      var inv := NewInvoice(proration.netMinor, Some(now), acc.sub.periodEnd, None).(lineItems := proration.lineItems);
      var i := |acc.invoices|;
      var swapped := Account(acc.sub.(plan := newPlan, updatedAt := now), acc.invoices + [inv]);
      var charged := SetInvoice(swapped, i, RecordCharge(inv, proration.netMinor, charge, inv.attemptCount, false, now));
      PaymentStamps(swapped, i, now);
      DunningStamps(swapped, i, Some(InvalidPaymentMethod), now);
      PaymentStamps(charged, i, now);
      if charge.Returned? { DunningStamps(charged, i, charge.reason, now); }
    }
  }

  lemma WebhookStamps(acc: Account, i: nat, eventId: string, now: Instant)
    requires i < |acc.invoices|
    ensures Stamped(acc.sub, WebhookSucceeded(acc, i, eventId, now).account.sub, now)
  {
    hide TransitionInvoice;
    PaymentStamps(SetInvoice(acc, i, NotePayment(acc.invoices[i], Success, None, eventId)), i, now);
  }

  lemma StepStamps(acc: Account, step: Step, now: Instant)
    ensures Stamped(acc.sub, Next(acc, step, now).sub, now)
  {
    hide OpenOrAdvanceDunning, Renew, Retry, ChargeInstallment, ChangePlan, WebhookSucceeded;
    match step
    case RenewStep(charge) => if RenewalDue(acc, now) { RenewStamps(acc, charge, now); }
    case RetryStep(i, charge) => if i < |acc.invoices| { RetryStamps(acc, i, charge, now); }
    case InstallmentStep(i, charge) => if i < |acc.invoices| { InstallmentStamps(acc, i, charge, now); }
    case ChangePlanStep(newPlan, charge) => PlanChangeStamps(acc, newPlan, charge, now);
    case WebhookSuccessStep(i, eventId) => if i < |acc.invoices| { WebhookStamps(acc, i, eventId, now); }
    case WebhookFailureStep(i, eventId) =>
      if i < |acc.invoices| {
        DunningStamps(SetInvoice(acc, i, NotePayment(acc.invoices[i], Failed, Some(CardDeclined), eventId)), i,
          Some(CardDeclined), now);
      }
    case _ =>
  }

  lemma {:induction false} RunStamps(acc: Account, start: Instant, steps: seq<Timed>)
    requires acc.sub.updatedAt >= start && Monotone(start, steps)
    ensures Run(acc, steps).sub.updatedAt >= start
  {
    hide Next;
    if steps != [] {
      var n := |steps| - 1;
      RunStamps(acc, start, steps[..n]);
      StepStamps(Run(acc, steps[..n]), steps[n].step, steps[n].now);
    }
  }

  // ------------------------------------------------------------------- the timer

  // The grace timer waits: after the step that takes a subscription to unpaid at t,
  // whatever happens in between, the grace worker does nothing to it before t + 14 days.
  lemma GraceWaits(acc: Account, step: Step, t: Instant, steps: seq<Timed>, now: Instant)
    requires acc.sub.status != Unpaid && Next(acc, step, t).sub.status == Unpaid
    requires Monotone(t, steps) && now < t + Days(14)
    ensures var later := Run(Next(acc, step, t), steps);
            Next(later, GraceStep, now) == later
  {
    hide Next, Run;
    StepStamps(acc, step, t);
    RunStamps(Next(acc, step, t), t, steps);
    TooEarly(Run(Next(acc, step, t), steps), now);
  }

  lemma TooEarly(acc: Account, now: Instant)
    requires acc.sub.updatedAt > now - Days(14)
    ensures Next(acc, GraceStep, now) == acc
  {}

  // What can touch the row of an unpaid subscription before the timer does: the customer
  // resuming or canceling it, or linking a card.
  predicate TouchesUnpaid(step: Step) {
    step.ResumeStep? || step.CancelStep? || (step.CardStep? && step.linked)
  }

  lemma UnpaidStaysUntouched(acc: Account, step: Step, now: Instant)
    requires acc.sub.status == Unpaid && !TouchesUnpaid(step) && !step.GraceStep?
    ensures var post := Next(acc, step, now).sub;
            post.status == Unpaid && post.updatedAt == acc.sub.updatedAt && post.kind == acc.sub.kind
  {
    hide TransitionInvoice;
    match step
    case RetryStep(i, charge) =>
    case InstallmentStep(i, charge) =>
      if i < |acc.invoices| && InstallmentDue(acc.invoices[i], now) {
        var inv := acc.invoices[i];
        UnpaidIsNotCompleted(SetInvoice(acc, i,
          RecordCharge(inv, inv.amountDue, charge, inv.attemptCount, false, now)), i, now);
      }
    case WebhookSuccessStep(i, eventId) =>
      if i < |acc.invoices| {
        UnpaidIsNotCompleted(SetInvoice(acc, i, NotePayment(acc.invoices[i], Success, None, eventId)), i, now);
      }
    case _ =>
  }

  lemma UnpaidIsNotCompleted(acc: Account, i: nat, now: Instant)
    requires i < |acc.invoices| && acc.sub.status == Unpaid
    ensures TransitionInvoice(acc, i, Paid, now).account.sub == acc.sub
  {}

  // Left alone, a recurring subscription is canceled by the first grace step from
  // t + 14 days on.
  ghost predicate AwaitsGrace(sub: Subscription, t: Instant, clock: Instant) {
    && sub.kind == Recurring
    && ((sub.status == Unpaid && sub.updatedAt == t) || (sub.status == Canceled && clock >= t + Days(14)))
  }

  lemma StepAwaitsGrace(acc: Account, step: Step, t: Instant, clock: Instant, now: Instant)
    requires AwaitsGrace(acc.sub, t, clock) && clock <= now && !TouchesUnpaid(step)
    ensures AwaitsGrace(Next(acc, step, now).sub, t, now)
  {
    hide Next;
    if acc.sub.status == Canceled {
      CanceledStays(acc, step, now);
    } else if step.GraceStep? {
      GraceCancels(acc, now);
    } else {
      UnpaidStaysUntouched(acc, step, now);
    }
  }

  lemma CanceledStays(acc: Account, step: Step, now: Instant)
    requires acc.sub.status == Canceled
    ensures Next(acc, step, now).sub.status == Canceled && Next(acc, step, now).sub.kind == acc.sub.kind
  {
    hide TransitionInvoice;
    match step
    case InstallmentStep(i, charge) =>
      if i < |acc.invoices| {
        var inv := acc.invoices[i];
        CanceledIsNotCompleted(SetInvoice(acc, i,
          RecordCharge(inv, inv.amountDue, charge, inv.attemptCount, false, now)), i, now);
      }
    case WebhookSuccessStep(i, eventId) =>
      if i < |acc.invoices| {
        CanceledIsNotCompleted(SetInvoice(acc, i, NotePayment(acc.invoices[i], Success, None, eventId)), i, now);
      }
    case _ =>
  }

  lemma CanceledIsNotCompleted(acc: Account, i: nat, now: Instant)
    requires i < |acc.invoices| && acc.sub.status == Canceled
    ensures TransitionInvoice(acc, i, Paid, now).account.sub == acc.sub
  {}

  lemma GraceCancels(acc: Account, now: Instant)
    requires acc.sub.kind == Recurring && acc.sub.status == Unpaid
    ensures var post := Next(acc, GraceStep, now).sub;
            if now >= acc.sub.updatedAt + Days(14) then post.status == Canceled && post.kind == Recurring
            else post == acc.sub
  {}

  lemma {:induction false} RunAwaitsGrace(acc: Account, t: Instant, steps: seq<Timed>)
    requires AwaitsGrace(acc.sub, t, t) && Monotone(t, steps)
    requires forall k :: 0 <= k < |steps| ==> !TouchesUnpaid(steps[k].step)
    ensures AwaitsGrace(Run(acc, steps).sub, t, LastInstant(t, steps))
  {
    hide Next, AwaitsGrace;
    if steps != [] {
      var n := |steps| - 1;
      RunAwaitsGrace(acc, t, steps[..n]);
      StepAwaitsGrace(Run(acc, steps[..n]), steps[n].step, t, LastInstant(t, steps[..n]), steps[n].now);
    }
  }

  // So a recurring subscription that became unpaid at t, and that nobody touches, is
  // canceled after a grace step exactly when that comes at t + 14 days or later.
  lemma GraceCancelsIff(acc: Account, step: Step, t: Instant, steps: seq<Timed>, now: Instant)
    requires acc.sub.status != Unpaid && Next(acc, step, t).sub.status == Unpaid
    requires Next(acc, step, t).sub.kind == Recurring
    requires Monotone(t, steps) && LastInstant(t, steps) <= now
    requires forall k :: 0 <= k < |steps| ==> !TouchesUnpaid(steps[k].step)
    ensures var later := Run(Next(acc, step, t), steps);
            Next(later, GraceStep, now).sub.status == Canceled <==> now >= t + Days(14)
  {
    hide Next, Run;
    StepStamps(acc, step, t);
    RunAwaitsGrace(Next(acc, step, t), t, steps);
    var later := Run(Next(acc, step, t), steps);
    if later.sub.status == Canceled { CanceledStays(later, GraceStep, now); }
    else { GraceCancels(later, now); }
  }

  // -------------------------------------------------------------------- triggers

  // The triggers that the status table names for its edges, and what the code adds to
  // them: resuming works from every status with an edge to active.
  predicate Triggers(step: Step, from: SubscriptionStatus, to: SubscriptionStatus, hasCard: bool) {
    match to
    case Active =>
      || (step.ResumeStep? && from in {Incomplete, Trialing, PastDue, Unpaid, Paused})
      || (step.WebhookSuccessStep? && from in {Incomplete, PastDue})
      || (step.EndTrialStep? && from == Trialing && hasCard)
      || (step.RetryStep? && from == PastDue && hasCard && step.charge.Returned? && step.charge.status == Success)
    case PastDue => from == Active && (HasCharge(step) || step.WebhookFailureStep?)
    case Unpaid => from in {Active, PastDue} && (HasCharge(step) || step.WebhookFailureStep?)
    case Paused => (step.PauseStep? && from in {Trialing, Active}) || (step.EndTrialStep? && from == Trialing && !hasCard)
    case Completed => from == Active && (step.InstallmentStep? || step.ChangePlanStep? || step.WebhookSuccessStep?)
    case Canceled =>
      || (step.CancelStep? && from in {Incomplete, Trialing, Active, PastDue, Unpaid, Paused})
      || (step.GraceStep? && from == Unpaid)
    case IncompleteExpired => step.ExpireStep? && from == Incomplete
    case Incomplete => false
    case Trialing => false
    case Defaulted => false
  }

  // Every change of status, by whatever step, has its trigger.
  lemma MovesHaveTriggers(acc: Account, step: Step, now: Instant)
    requires Next(acc, step, now).sub.status != acc.sub.status
    ensures Triggers(step, acc.sub.status, Next(acc, step, now).sub.status, acc.sub.hasCard)
  {
    hide Renew, Retry, ChargeInstallment, ChangePlan, WebhookSucceeded, OpenOrAdvanceDunning, DunnedBy;
    match step
    case RenewStep(charge) => if RenewalDue(acc, now) { RenewMoves(acc, charge, now); }
    case RetryStep(i, charge) =>
      if i < |acc.invoices| && RetryDue(acc.invoices[i], now) { RetryMoves(acc, i, charge, now); }
    case InstallmentStep(i, charge) =>
      if i < |acc.invoices| && acc.sub.kind == Installment && InstallmentDue(acc.invoices[i], now) {
        InstallmentMoves(acc, i, charge, now);
      }
    case ChangePlanStep(newPlan, charge) => PlanChangeMoves(acc, newPlan, charge, now);
    case WebhookSuccessStep(i, eventId) => if i < |acc.invoices| { WebhookMoves(acc, i, eventId, now); }
    case WebhookFailureStep(i, eventId) =>
      if i < |acc.invoices| {
        DunningOutcome(SetInvoice(acc, i, NotePayment(acc.invoices[i], Failed, Some(CardDeclined), eventId)), i,
          Some(CardDeclined), now);
      }
    case _ =>
  }

  lemma RenewMoves(acc: Account, charge: Charge, now: Instant)
    requires RenewalDue(acc, now)
    ensures Renew(acc, charge, now).account.sub.status in {Active, PastDue, Unpaid}
  {
    hide Renew;
    RenewOutcome(acc, charge, now);
    if i: nat :| OnlyForPeriod(acc, i) {
      assert RenewedOn(acc, Renew(acc, charge, now), i, charge, now);
    } else if NoneForPeriod(acc) {
      assert RenewedOn(Issued(acc), Renew(acc, charge, now), |acc.invoices|, charge, now);
    }
  }

  lemma DunnedMoves(before: Invoice, after: Invoice, reason: Option<FailureReason>, status: SubscriptionStatus, now: Instant)
    requires DunnedBy(before, after, reason, status, now)
    ensures status in {PastDue, Unpaid}
  {}

  lemma RetryMoves(acc: Account, i: nat, charge: Charge, now: Instant)
    requires i < |acc.invoices| && RetryDue(acc.invoices[i], now)
    ensures var post := Retry(acc, i, charge, now).account.sub.status;
            || post == acc.sub.status || (acc.sub.status == PastDue && post == Unpaid)
            || (acc.sub.status == PastDue && acc.sub.hasCard && post == Active &&
                charge.Returned? && charge.status == Success)
  {
    hide Retry, OpenOrAdvanceDunning;
    RetryOutcome(acc, i, charge, now);
  }

  lemma InstallmentMoves(acc: Account, i: nat, charge: Charge, now: Instant)
    requires i < |acc.invoices| && acc.invoices[i].status == Open && acc.sub.kind == Installment
    ensures var post := ChargeInstallment(acc, i, charge, now).account.sub.status;
            || post == acc.sub.status
            || (Live(acc.sub) && post in {PastDue, Unpaid})
            || (acc.sub.status == Active && post == Completed)
  {
    hide ChargeInstallment;
    InstallmentOutcome(acc, i, charge, now);
  }

  lemma PlanChangeMoves(acc: Account, newPlan: Plan, charge: Charge, now: Instant)
    ensures var post := ChangePlan(acc, newPlan, charge, now).account.sub.status;
            post == acc.sub.status || (acc.sub.status == Active && post in {PastDue, Unpaid, Completed})
  {
    hide ChangePlan;
    PlanChangeOutcome(acc, newPlan, charge, now);
  }

  lemma WebhookMoves(acc: Account, i: nat, eventId: string, now: Instant)
    requires i < |acc.invoices|
    ensures var post := WebhookSucceeded(acc, i, eventId, now).account.sub.status;
            || post == acc.sub.status
            || (acc.sub.status in {Incomplete, PastDue} && post == Active)
            || (acc.sub.status == Active && post == Completed)
  {
    hide TransitionInvoice;
    var noted := SetInvoice(acc, i, NotePayment(acc.invoices[i], Success, None, eventId));
    if acc.invoices[i].status == Open { PayingKeepsOthers(noted, i, now); }
    else { CannotPay(noted, i, now); }
  }

  // -------------------------------------------------------------------- commands

  predicate RequestGranted(acc: Account, target: SubscriptionStatus, now: Instant) {
    var post := TransitionSubscription(acc, target, now).account;
    && post.invoices == acc.invoices
    && (TransitionSubscription(acc, target, now).raised <==> !SubscriptionMoveAllowed(acc.sub.status, target))
    && if SubscriptionMoveAllowed(acc.sub.status, target) then post.sub.status == target && SamePeriod(acc.sub, post.sub)
       else post == acc
  }

  lemma RequestDecides(acc: Account, target: SubscriptionStatus, now: Instant)
    ensures RequestGranted(acc, target, now)
  {
    hide SubscriptionMoveAllowed;
  }

  lemma EdgesByTarget(from: SubscriptionStatus)
    ensures SubscriptionMoveAllowed(from, Paused) <==> from in {Trialing, Active}
    ensures SubscriptionMoveAllowed(from, Active) <==> from in {Incomplete, Trialing, PastDue, Unpaid, Paused}
    ensures SubscriptionMoveAllowed(from, Canceled) <==> from in {Incomplete, Trialing, Active, PastDue, Unpaid, Paused}
    ensures SubscriptionMoveAllowed(from, IncompleteExpired) <==> from == Incomplete
    ensures !SubscriptionMoveAllowed(from, from)
  {}

  // What the customer and the two timers of a new subscription ask for, they get exactly
  // in the statuses with such an edge; otherwise nothing changes. Invoices never do.
  lemma CommandOutcome(acc: Account, step: Step, now: Instant)
    requires step.PauseStep? || step.ResumeStep? || step.CancelStep? || step.ExpireStep? || step.EndTrialStep?
    ensures var post := Next(acc, step, now);
            var from := acc.sub.status;
            && post.invoices == acc.invoices
            && (post.sub.status == from ==> post == acc)
            && post.sub.status ==
                 (match step
                  case PauseStep => if from in {Trialing, Active} then Paused else from
                  case ResumeStep => if from in {Incomplete, Trialing, PastDue, Unpaid, Paused} then Active else from
                  case CancelStep =>
                    if from in {Incomplete, Trialing, Active, PastDue, Unpaid, Paused} then Canceled else from
                  case ExpireStep => if from == Incomplete then IncompleteExpired else from
                  case _ => if from != Trialing then from else if acc.sub.hasCard then Active else Paused)
            && (step.EndTrialStep? && from == Trialing && acc.sub.hasCard ==>
                  post.sub.periodStart == Some(now) &&
                  post.sub.periodEnd ==
                    Some(Calendar.AdvanceBillingPeriod(now, acc.sub.plan.interval, acc.sub.plan.intervalCount)))
            && (!step.EndTrialStep? || post.sub.status != Active ==> SamePeriod(acc.sub, post.sub))
            && (Take(acc, step, now).raised <==>
                  post.sub.status == from && (step.PauseStep? || step.ResumeStep? || step.CancelStep?))
  {
    hide Calendar.AdvanceBillingPeriod, Calendar.ComputePeriodEnd, TransitionSubscription, SubscriptionMoveAllowed;
    EdgesByTarget(acc.sub.status);
    match step
    case PauseStep => RequestDecides(acc, Paused, now);
    case ResumeStep => RequestDecides(acc, Active, now);
    case CancelStep => RequestDecides(acc, Canceled, now);
    case ExpireStep => RequestDecides(acc, IncompleteExpired, now);
    case EndTrialStep =>
      RequestDecides(acc, Paused, now);
      RequestDecides(acc.(sub := StartPeriod(acc.sub, now)), Active, now);
      Calendar.IntervalTablesAgree(now, acc.sub.plan.interval, acc.sub.plan.intervalCount, 0);
  }
}
