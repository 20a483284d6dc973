// The engine as the program runs it: records updated field by field, and workers
// that loop over them. Every method is proved against the functions of Billing.dfy.
module Engine {
  import opened Prelude
  import opened Calendar
  import opened RetryPolicy
  import opened Model
  import opened Billing
  import opened Installments

  class AccountRecord {
    var kind: SubscriptionType
    var status: SubscriptionStatus
    var plan: Plan
    var hasCard: bool
    var periodStart: Option<Instant>
    var periodEnd: Option<Instant>
    var canceledAt: Option<Instant>
    var updatedAt: Instant
    var audit: seq<AuditRow<SubscriptionStatus>>
    var invoices: seq<Invoice>

    function State(): Account
      reads this
    {
      Account(Subscription(kind, status, plan, hasCard, periodStart, periodEnd, canceledAt, updatedAt, audit),
              invoices)
    }

    // create_subscription_flow. A bank transfer starts active and a trial starts with the
    // trial as its period; neither is billed. Any other subscription starts incomplete
    // with one open invoice, or one per installment.
    constructor Create(plan: Plan, hasCard: bool, bankTransfer: bool, trialRequested: bool,
                       trialPeriodDays: Option<int>, now: Instant)
      ensures State().sub == CreatedSubscription(plan, hasCard, bankTransfer, trialRequested, trialPeriodDays, now)
      ensures invoices ==
              if status == Incomplete then ScheduledInvoices(plan, now, InstallmentCount(plan)) else []
    {
      this.kind := if plan.installmentsCount.GetOr(0) != 0 then Installment else Recurring;
      var initial, start, end := Incomplete, None, None;
      if bankTransfer {
        initial := Active;
      } else if trialRequested || trialPeriodDays.GetOr(0) > 0 {
        var trialDays := if trialPeriodDays.GetOr(0) != 0 then trialPeriodDays.value else 14;
        initial, start, end := Trialing, Some(now), Some(now + Days(trialDays));
      }
      this.status, this.periodStart, this.periodEnd := initial, start, end;
      this.plan, this.hasCard, this.canceledAt := plan, hasCard, None;
      this.updatedAt, this.audit, this.invoices := now, [], [];
      new;
      if initial == Incomplete {
        IssueInvoices(now);
      }
    }

    // The loop of create_subscription_flow.
    method IssueInvoices(now: Instant)
      requires invoices == []
      modifies this`invoices
      ensures invoices == ScheduledInvoices(plan, now, InstallmentCount(plan))
    {
      hide ScheduleOffset;
      var count := InstallmentCount(plan);
      var i := 0;
      while i < count
        invariant 0 <= i && (i <= count || i == 0)
        invariant invoices == ScheduledInvoices(plan, now, i)
      {
        var dueDate := ScheduleOffset(now, plan.interval, i, plan.intervalCount);
        var end := ScheduleOffset(now, plan.interval, i + 1, plan.intervalCount);
        invoices := invoices + [NewInvoice(plan.amount, Some(dueDate), Some(end), Some(dueDate))];
        i := i + 1;
      }
    }

    method RequestStatus(target: SubscriptionStatus, now: Instant) returns (raised: bool)
      modifies this
      ensures Outcome(State(), raised) == TransitionSubscription(old(State()), target, now)
      ensures invoices == old(invoices)
    {
      if !SubscriptionMoveAllowed(status, target) {
        return true;
      }
      var oldStatus := status;
      status := target;
      if target == Canceled && canceledAt.None? {
        canceledAt := Some(now);
      }
      audit := audit + [AuditRow(oldStatus, target, now)];
      updatedAt := now;
      return false;
    }

    method UpdateInvoice(i: nat, inv: Invoice)
      requires i < |invoices|
      modifies this`invoices
      ensures State() == SetInvoice(old(State()), i, inv)
    {
      invoices := invoices[i := inv];
    }

    method RequestInvoiceStatus(i: nat, target: InvoiceStatus, now: Instant) returns (raised: bool)
      requires i < |invoices|
      modifies this
      ensures Outcome(State(), raised) == TransitionInvoice(old(State()), i, target, now)
      ensures |invoices| == old(|invoices|)
    {
      var inv := invoices[i];
      if !InvoiceMoveAllowed(inv.status, target) {
        return true;
      }
      var moved := inv.(status := target, audit := inv.audit + [AuditRow(inv.status, target, now)]);
      if target == Paid && inv.paidAt.None? {
        moved := moved.(paidAt := Some(now));
      }
      UpdateInvoice(i, moved);
      raised := false;
      if target == Paid && kind == Installment && status != Completed {
        var remaining := HasOutstanding();
        if !remaining {
          raised := RequestStatus(Completed, now);
        }
      }
    }

    method HasOutstanding() returns (found: bool)
      ensures found <==> !NothingOutstanding(State())
    {
      found := false;
      for j := 0 to |invoices|
        invariant found <==> exists k :: 0 <= k < j && Outstanding(invoices[k])
      {
        if Outstanding(invoices[j]) { found := true; }
      }
    }

    // open_or_advance_dunning
    method AdvanceDunning(i: nat, reason: Option<FailureReason>, now: Instant)
      requires i < |invoices|
      modifies this
      ensures State() == OpenOrAdvanceDunning(old(State()), i, reason, now)
      ensures |invoices| == old(|invoices|)
    {
      hide CountRetries, NextRetryGapDays, MoveSubscription;
      if reason == Some(RequiresAction) || status !in {Active, PastDue} {
        return;
      }
      if invoices[i].dunningReason.None? {
        UpdateInvoice(i, invoices[i].(
          dunningReason := Some(reason.GetOr(GenericDecline)), firstFailureAt := Some(now)));
      }
      assert invoices[i] == Anchored(old(invoices)[i], reason, now);
      var anchor := invoices[i].dunningReason;
      var retriesDone := RetriesOf(invoices[i].attempts);
      var gap := NextRetryGapDays(anchor, retriesDone);
      if status == Active {
        var _ := RequestStatus(PastDue, now);
      }
      if gap.Some? {
        UpdateInvoice(i, invoices[i].(nextRetryAt := Some(now + Days(gap.value))));
        return;
      }
      UpdateInvoice(i, invoices[i].(nextRetryAt := None));
      if RequiresPaymentMethodUpdate(anchor) && retriesDone == 0 {
        return;
      }
      var _ := RequestStatus(Unpaid, now);
    }

    method Charge(i: nat, amount: int, charge: Charge, number: nat, isRetry: bool, now: Instant)
      requires i < |invoices|
      modifies this`invoices
      ensures State() == SetInvoice(old(State()), i,
                RecordCharge(old(invoices)[i], amount, charge, number, isRetry, now))
    {
      var inv := invoices[i];
      var key := inv.attemptCount;
      UpdateInvoice(i, inv.(calls := inv.calls + [ProviderCall(key, amount, charge, isRetry, now)]));
      if charge.Returned? {
        var attempt := PaymentAttempt(charge.status, charge.reason, ChargeKey(key), number, isRetry);
        UpdateInvoice(i, invoices[i].(attempts := inv.attempts + [attempt], attemptCount := key + 1));
      }
    }

    method AdvanceToNextPeriod(now: Instant)
      requires periodEnd.Some?
      modifies this`periodStart, this`periodEnd, this`updatedAt
      ensures State() == old(State()).(sub := AdvancePeriod(old(State()).sub, now))
    {
      periodStart := periodEnd;
      periodEnd := Some(AdvanceBillingPeriod(periodEnd.value, plan.interval, plan.intervalCount));
      updatedAt := now;
    }

    // The body of the loop of process_billing_cycle.
    method RenewDue(charge: Charge, now: Instant) returns (raised: bool)
      requires RenewalDue(State(), now)
      modifies this
      ensures Outcome(State(), raised) == Renew(old(State()), charge, now)
    {
      var existing := OpenForPeriod(invoices, periodStart);
      OpenForPeriodIndices(invoices, periodStart);
      if |existing| > 1 {
        return true;
      }
      var i := |invoices|;
      if |existing| == 1 {
        assert existing[0] in existing;
        i := existing[0];
      } else {
        invoices := invoices + [NewInvoice(plan.amount, periodStart, periodEnd, None)];
      }
      raised := ChargeForPeriod(i, charge, now);
    }

    method ChargeForPeriod(i: nat, charge: Charge, now: Instant) returns (raised: bool)
      requires i < |invoices| && periodEnd.Some?
      modifies this
      ensures Outcome(State(), raised) == ChargeRenewal(old(State()), i, charge, now)
    {
      if !hasCard {
        AdvanceDunning(i, Some(InvalidPaymentMethod), now);
        return false;
      }
      Charge(i, plan.amount, charge, 0, false, now);
      match charge
      case Raised => return true;
      case Returned(answer, reason) =>
        if answer == Success {
          raised := RequestInvoiceStatus(i, Paid, now);
          if !raised { AdvanceToNextPeriod(now); }
        } else {
          AdvanceDunning(i, reason, now);
          raised := false;
        }
    }

    // _retry_invoice
    method RetryInvoice(i: nat, charge: Charge, now: Instant) returns (raised: bool)
      requires i < |invoices|
      modifies this
      ensures Outcome(State(), raised) == Retry(old(State()), i, charge, now)
      ensures |invoices| == old(|invoices|)
    {
      if status != PastDue || !hasCard {
        UpdateInvoice(i, invoices[i].(nextRetryAt := None));
        return false;
      }
      Charge(i, invoices[i].amountDue, charge, invoices[i].attemptCount, true, now);
      match charge
      case Raised => return true;
      case Returned(answer, reason) =>
        if answer == Success {
          raised := RequestInvoiceStatus(i, Paid, now);
          if raised { return; }
          UpdateInvoice(i, invoices[i].(nextRetryAt := None, dunningReason := None));
          if periodEnd.Some? { AdvanceToNextPeriod(now); }
          raised := RequestStatus(Active, now);
        } else {
          AdvanceDunning(i, reason, now);
          raised := false;
        }
    }

    // The body of the loop of process_due_installment_invoices.
    method ChargeInstallmentRow(i: nat, charge: Charge, now: Instant) returns (raised: bool)
      requires i < |invoices|
      modifies this
      ensures Outcome(State(), raised) == ChargeInstallment(old(State()), i, charge, now)
      ensures |invoices| == old(|invoices|)
    {
      raised := false;
      if !hasCard {
        AdvanceDunning(i, Some(InvalidPaymentMethod), now);
        return;
      }
      Charge(i, invoices[i].amountDue, charge, invoices[i].attemptCount, false, now);
      match charge
      case Raised =>
      case Returned(answer, reason) =>
        if answer == Success {
          raised := RequestInvoiceStatus(i, Paid, now);
        } else {
          AdvanceDunning(i, reason, now);
        }
    }

    // change_plan_flow
    method ChangePlanTo(newPlan: Plan, charge: Charge, now: Instant) returns (raised: bool)
      modifies this
      ensures Outcome(State(), raised) == ChangePlan(old(State()), newPlan, charge, now)
    {
      if status != Active || newPlan.id == plan.id || plan.currency != newPlan.currency {
        return true;
      }
      var proration := ProrateChange(State().sub, newPlan, now);
      var i := |invoices|;
      var invoice := NewInvoice(proration.netMinor, Some(now), periodEnd, None);
      invoices := invoices + [invoice.(lineItems := proration.lineItems)];
      plan := newPlan;
      updatedAt := now;
      raised := false;
      if proration.netMinor <= 0 {
        raised := RequestInvoiceStatus(i, Paid, now);
      } else if !hasCard {
        AdvanceDunning(i, Some(InvalidPaymentMethod), now);
      } else {
        Charge(i, proration.netMinor, charge, invoices[i].attemptCount, false, now);
        match charge
        case Raised => raised := true;
        case Returned(answer, reason) =>
          if answer == Success {
            raised := RequestInvoiceStatus(i, Paid, now);
          } else {
            AdvanceDunning(i, reason, now);
          }
      }
    }

    method StartNewPeriod(now: Instant)
      modifies this`periodStart, this`periodEnd, this`updatedAt
      ensures State() == old(State()).(sub := StartPeriod(old(State()).sub, now))
    {
      periodStart := Some(now);
      periodEnd := Some(ComputePeriodEnd(now, plan.interval, plan.intervalCount));
      updatedAt := now;
    }

    method NoteWebhook(i: nat, answer: PaymentStatus, reason: Option<FailureReason>, eventId: string)
      requires i < |invoices|
      modifies this`invoices
      ensures State() == SetInvoice(old(State()), i, old(invoices)[i].(attempts := old(invoices)[i].attempts +
                [PaymentAttempt(answer, reason, Event(eventId), 0, false)]))
    {
      var attempt := PaymentAttempt(answer, reason, Event(eventId), 0, false);
      UpdateInvoice(i, invoices[i].(attempts := invoices[i].attempts + [attempt]));
    }

    // The success branch of process_nomba_webhook. An attempt that was staged but not
    // committed is rolled back with the exception.
    method SettleByWebhook(i: nat, eventId: string, now: Instant) returns (raised: bool)
      requires i < |invoices|
      modifies this
      ensures Outcome(State(), raised) == WebhookSucceeded(old(State()), i, eventId, now)
    {
      var committed := invoices;
      NoteWebhook(i, Success, None, eventId);
      if invoices[i].status != Paid {
        var payable := InvoiceMoveAllowed(invoices[i].status, Paid);
        raised := RequestInvoiceStatus(i, Paid, now);
        if raised {
          if !payable { invoices := committed; }
          return;
        }
      }
      UpdateInvoice(i, invoices[i].(nextRetryAt := None, dunningReason := None));
      raised := false;
      if status in {Incomplete, PastDue} {
        StartNewPeriod(now);
        raised := RequestStatus(Active, now);
      }
    }

    method DeclineByWebhook(i: nat, eventId: string, now: Instant)
      requires i < |invoices|
      modifies this
      ensures Outcome(State(), false) == WebhookFailed(old(State()), i, eventId, now)
    {
      NoteWebhook(i, Failed, Some(CardDeclined), eventId);
      AdvanceDunning(i, Some(CardDeclined), now);
    }
  }

  // _count_retries as a scan of the attempts.
  method RetriesOf(attempts: seq<PaymentAttempt>) returns (n: nat)
    ensures n == CountRetries(attempts)
  {
    n := 0;
    for j := 0 to |attempts|
      invariant n == CountRetries(attempts[..j])
    {
      assert attempts[..j + 1][..j] == attempts[..j];
      if attempts[j].isRetry { n := n + 1; }
    }
    assert attempts[..|attempts|] == attempts;
  }
}
