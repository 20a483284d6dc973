// The audit trail replays every status, and terminal statuses absorb.
module Lifecycle {
  import opened Prelude
  import opened RetryPolicy
  import opened Model
  import opened Billing
  import opened Changes

  // ---------------------------------------------------------------- audit replay

  // The status reached from `from` by the recorded transitions, if they form a
  // connected path of allowed edges.
  function Replay<S(==)>(from: S, rows: seq<AuditRow<S>>, allowed: (S, S) -> bool): Option<S> {
    if rows == [] then Some(from)
    else
      var last := rows[|rows| - 1];
      if Replay(from, rows[..|rows| - 1], allowed) == Some(last.oldStatus) && allowed(last.oldStatus, last.newStatus)
      then Some(last.newStatus) else None
  }

  lemma {:induction false} ReplayInTwoParts<S>(from: S, a: seq<AuditRow<S>>, b: seq<AuditRow<S>>, allowed: (S, S) -> bool)
    requires Replay(from, a, allowed).Some?
    ensures Replay(from, a + b, allowed) == Replay(Replay(from, a, allowed).value, b, allowed)
    decreases |b|
  {
    if b == [] {
      assert a + b == a;
    } else {
      assert (a + b)[..|a + b| - 1] == a + b[..|b| - 1];
      ReplayInTwoParts(from, a, b[..|b| - 1], allowed);
    }
  }

  // No edge leaves `from`, so nothing can have been recorded after it.
  lemma {:induction false} TerminalEndsReplay<S>(from: S, rows: seq<AuditRow<S>>, allowed: (S, S) -> bool)
    requires Replay(from, rows, allowed).Some?
    requires forall t :: !allowed(from, t)
    ensures rows == []
  {
    if rows != [] {
      TerminalEndsReplay(from, rows[..|rows| - 1], allowed);
    }
  }

  // The audit rows written between two versions of a row replay its status. A timestamp
  // that is set is never overwritten; it is set only on entering its status, to the
  // instant of the audit row that records it.
  ghost predicate SubscriptionFollows(a: Subscription, b: Subscription) {
    && a.audit <= b.audit
    && Replay(a.status, b.audit[|a.audit|..], SubscriptionMoveAllowed) == Some(b.status)
    && (a.canceledAt.Some? ==> b.canceledAt == a.canceledAt)
    && (b.canceledAt != a.canceledAt ==> b.status == Canceled)
    && (b.status == Canceled && a.status != Canceled && a.canceledAt.None? ==> b.canceledAt == LastAudited(b.audit))
  }

  function LastAudited<S>(rows: seq<AuditRow<S>>): Option<Instant> {
    if rows == [] then None else Some(rows[|rows| - 1].at)
  }

  ghost predicate InvoiceFollows(a: Invoice, b: Invoice) {
    && a.audit <= b.audit
    && Replay(a.status, b.audit[|a.audit|..], InvoiceMoveAllowed) == Some(b.status)
    && (a.paidAt.Some? ==> b.paidAt == a.paidAt)
    && (b.paidAt != a.paidAt ==> b.status == Paid)
    && (b.status == Paid && a.status != Paid && a.paidAt.None? ==> b.paidAt == LastAudited(b.audit))
  }

  lemma SubscriptionFollowsTransitively(a: Subscription, b: Subscription, c: Subscription)
    requires SubscriptionFollows(a, b) && SubscriptionFollows(b, c)
    ensures SubscriptionFollows(a, c)
  {
    assert c.audit[|a.audit|..] == b.audit[|a.audit|..] + c.audit[|b.audit|..];
    ReplayInTwoParts(a.status, b.audit[|a.audit|..], c.audit[|b.audit|..], SubscriptionMoveAllowed);
    if b.status == Canceled {
      TerminalEndsReplay(b.status, c.audit[|b.audit|..], SubscriptionMoveAllowed);
      assert c.audit == b.audit;
    }
  }

  lemma InvoiceFollowsTransitively(a: Invoice, b: Invoice, c: Invoice)
    requires InvoiceFollows(a, b) && InvoiceFollows(b, c)
    ensures InvoiceFollows(a, c)
  {
    assert c.audit[|a.audit|..] == b.audit[|a.audit|..] + c.audit[|b.audit|..];
    ReplayInTwoParts(a.status, b.audit[|a.audit|..], c.audit[|b.audit|..], InvoiceMoveAllowed);
    if b.status == Paid {
      TerminalEndsReplay(b.status, c.audit[|b.audit|..], InvoiceMoveAllowed);
      assert c.audit == b.audit;
    }
  }

  lemma ReplayOne<S>(from: S, row: AuditRow<S>, allowed: (S, S) -> bool)
    requires row.oldStatus == from && allowed(from, row.newStatus)
    ensures Replay(from, [row], allowed) == Some(row.newStatus)
  {
    assert [row][..0] == [];
  }

  // A request is refused exactly when the table has no such edge, and then nothing
  // changes; otherwise the row follows.
  lemma RequestFollows(sub: Subscription, target: SubscriptionStatus, now: Instant)
    ensures var moved := MoveSubscription(sub, target, now);
            && (moved.None? <==> !SubscriptionMoveAllowed(sub.status, target))
            && (moved.Some? ==> SubscriptionFollows(sub, moved.value) && moved.value.status == target)
  {
    if SubscriptionMoveAllowed(sub.status, target) {
      var row := AuditRow(sub.status, target, now);
      assert (sub.audit + [row])[|sub.audit|..] == [row];
      ReplayOne(sub.status, row, SubscriptionMoveAllowed);
    }
  }

  lemma InvoiceRequestFollows(inv: Invoice, target: InvoiceStatus, now: Instant)
    ensures var moved := MoveInvoice(inv, target, now);
            && (moved.None? <==> !InvoiceMoveAllowed(inv.status, target))
            && (moved.Some? ==> InvoiceFollows(inv, moved.value) && moved.value.status == target)
  {
    if InvoiceMoveAllowed(inv.status, target) {
      var row := AuditRow(inv.status, target, now);
      assert (inv.audit + [row])[|inv.audit|..] == [row];
      ReplayOne(inv.status, row, InvoiceMoveAllowed);
    }
  }

  // An invoice is drafted, then open, then settled one way or another: it moves by one
  // phase at a time and never back.
  function Phase(s: InvoiceStatus): nat {
    match s
    case Draft => 0
    case Open => 1
    case Paid => 2
    case Void => 2
    case Uncollectible => 2
  }

  lemma InvoiceMovesOnePhase(a: InvoiceStatus, b: InvoiceStatus)
    ensures InvoiceMoveAllowed(a, b) <==> Phase(b) == Phase(a) + 1
    ensures InvoiceTerminal(a) <==> forall t :: !InvoiceMoveAllowed(a, t)
  {
    if !InvoiceTerminal(a) {
      assert InvoiceMoveAllowed(a, if a == Draft then Open else Paid);
    }
  }

  // A subscription is over exactly in the statuses that no edge leaves.
  lemma TerminalIffNoEdge(a: SubscriptionStatus)
    ensures SubscriptionTerminal(a) <==> forall t :: !SubscriptionMoveAllowed(a, t)
  {
    if !SubscriptionTerminal(a) { assert SubscriptionMoveAllowed(a, Canceled); }
  }

  lemma UnmovedFollows(a: Subscription, b: Subscription)
    requires a.status == b.status && a.audit == b.audit && a.canceledAt == b.canceledAt
    ensures SubscriptionFollows(a, b)
  {
    assert b.audit[|a.audit|..] == [];
  }

  lemma UnmovedInvoiceFollows(a: Invoice, b: Invoice)
    requires a.status == b.status && a.audit == b.audit && a.paidAt == b.paidAt
    ensures InvoiceFollows(a, b)
  {
    assert b.audit[|a.audit|..] == [];
  }

  lemma RequestOutcomeFollows(acc: Account, target: SubscriptionStatus, now: Instant)
    ensures SubscriptionFollows(acc.sub, TransitionSubscription(acc, target, now).account.sub)
  {
    hide SubscriptionFollows;
    RequestFollows(acc.sub, target, now);
    UnmovedFollows(acc.sub, acc.sub);
  }

  lemma PaymentFollows(acc: Account, i: nat, target: InvoiceStatus, now: Instant)
    requires i < |acc.invoices|
    ensures SubscriptionFollows(acc.sub, TransitionInvoice(acc, i, target, now).account.sub)
  {
    hide SubscriptionFollows, MoveSubscription;
    RequestFollows(acc.sub, Completed, now);
    UnmovedFollows(acc.sub, acc.sub);
  }

  lemma DunningFollows(acc: Account, i: nat, reason: Option<FailureReason>, now: Instant)
    requires i < |acc.invoices|
    ensures SubscriptionFollows(acc.sub, OpenOrAdvanceDunning(acc, i, reason, now).sub)
  {
    hide SubscriptionFollows, TransitionSubscription, NextRetryGapDays;
    UnmovedFollows(acc.sub, acc.sub);
    RequestOutcomeFollows(acc, PastDue, now);
    var dunned := if acc.sub.status == Active then TransitionSubscription(acc, PastDue, now).account else acc;
    var inv := Anchored(acc.invoices[i], reason, now);
    if EligibleForDunning(acc, reason) {
      DunnedAccount(acc, now);
      var stopped := SetInvoice(dunned, i, inv.(nextRetryAt := None));
      RequestOutcomeFollows(stopped, Unpaid, now);
      SubscriptionFollowsTransitively(acc.sub, dunned.sub, TransitionSubscription(stopped, Unpaid, now).account.sub);
    }
  }

  lemma DunnedAccount(acc: Account, now: Instant)
    ensures TransitionSubscription(acc, PastDue, now).account.invoices == acc.invoices
  {}

  lemma StepFollowsForSubscription(acc: Account, step: Step, now: Instant)
    ensures SubscriptionFollows(acc.sub, Next(acc, step, now).sub)
  {
    hide SubscriptionFollows, TransitionSubscription, TransitionInvoice, OpenOrAdvanceDunning, Renew, Retry,
      ChargeInstallment, ChangePlan, WebhookSucceeded, EndTrial;
    UnmovedFollows(acc.sub, acc.sub);
    match step
    case RenewStep(charge) => if RenewalDue(acc, now) { RenewFollows(acc, charge, now); }
    case RetryStep(i, charge) =>
      if i < |acc.invoices| && RetryDue(acc.invoices[i], now) { RetryFollows(acc, i, charge, now); }
    case InstallmentStep(i, charge) =>
      if i < |acc.invoices| { InstallmentFollows(acc, i, charge, now); }
    case GraceStep =>
      RequestOutcomeFollows(acc, Defaulted, now);
      RequestOutcomeFollows(acc, Canceled, now);
    case ChangePlanStep(newPlan, charge) => PlanChangeFollows(acc, newPlan, charge, now);
    case WebhookSuccessStep(i, eventId) => if i < |acc.invoices| { WebhookFollows(acc, i, eventId, now); }
    case WebhookFailureStep(i, eventId) =>
      if i < |acc.invoices| {
        var noted := SetInvoice(acc, i, NotePayment(acc.invoices[i], Failed, Some(CardDeclined), eventId));
        DunningFollows(noted, i, Some(CardDeclined), now);
      }
    case PauseStep => RequestOutcomeFollows(acc, Paused, now);
    case ResumeStep => RequestOutcomeFollows(acc, Active, now);
    case CancelStep => RequestOutcomeFollows(acc, Canceled, now);
    case ExpireStep => RequestOutcomeFollows(acc, IncompleteExpired, now);
    case EndTrialStep => TrialFollows(acc, now);
    case CardStep(_, _) => UnmovedFollows(acc.sub, Next(acc, step, now).sub);
  }

  lemma ChargeRenewalFollows(acc: Account, i: nat, charge: Charge, now: Instant)
    requires i < |acc.invoices| && acc.sub.periodEnd.Some? && acc.sub.kind == Recurring
    requires acc.invoices[i].status == Open
    ensures SubscriptionFollows(acc.sub, ChargeRenewal(acc, i, charge, now).account.sub)
  {
    hide SubscriptionFollows, TransitionInvoice, OpenOrAdvanceDunning, RecordCharge;
    DunningFollows(acc, i, Some(InvalidPaymentMethod), now);
    UnmovedFollows(acc.sub, acc.sub);
    UnmovedFollows(acc.sub, AdvancePeriod(acc.sub, now));
    var charged := SetInvoice(acc, i, RecordCharge(acc.invoices[i], acc.sub.plan.amount, charge, 0, false, now));
    RecordKeepsStatus(acc.invoices[i], acc.sub.plan.amount, charge, 0, false, now);
    if charge.Returned? {
      DunningFollows(charged, i, charge.reason, now);
      if charge.status == Success { PayingKeepsOthers(charged, i, now); }
    }
  }

  lemma RenewFollows(acc: Account, charge: Charge, now: Instant)
    requires RenewalDue(acc, now)
    ensures SubscriptionFollows(acc.sub, Renew(acc, charge, now).account.sub)
  {
    hide SubscriptionFollows, ChargeRenewal;
    UnmovedFollows(acc.sub, acc.sub);
    OpenForPeriodIndices(acc.invoices, acc.sub.periodStart);
    var existing := OpenForPeriod(acc.invoices, acc.sub.periodStart);
    if |existing| == 1 {
      assert existing[0] in existing;
      ChargeRenewalFollows(acc, existing[0], charge, now);
    } else if |existing| == 0 {
      var billed := acc.(invoices := acc.invoices +
        [NewInvoice(acc.sub.plan.amount, acc.sub.periodStart, acc.sub.periodEnd, None)]);
      ChargeRenewalFollows(billed, |acc.invoices|, charge, now);
    }
  }

  lemma RetryFollows(acc: Account, i: nat, charge: Charge, now: Instant)
    requires i < |acc.invoices| && RetryDue(acc.invoices[i], now)
    ensures SubscriptionFollows(acc.sub, Retry(acc, i, charge, now).account.sub)
  {
    hide SubscriptionFollows, TransitionInvoice, TransitionSubscription, OpenOrAdvanceDunning, RecordCharge;
    UnmovedFollows(acc.sub, acc.sub);
    var inv := acc.invoices[i];
    var charged := SetInvoice(acc, i, RecordCharge(inv, inv.amountDue, charge, inv.attemptCount, true, now));
    if charge.Returned? && acc.sub.status == PastDue && acc.sub.hasCard {
      DunningFollows(charged, i, charge.reason, now);
      PaymentFollows(charged, i, Paid, now);
      var paid := TransitionInvoice(charged, i, Paid, now);
      RecordKeepsStatus(inv, inv.amountDue, charge, inv.attemptCount, true, now);
      if charge.status == Success && !paid.raised {
        PayingKeepsOthers(charged, i, now);
        var cleared := SetInvoice(paid.account, i, ClearDunning(paid.account.invoices[i]));
        var advanced := if cleared.sub.periodEnd.None? then cleared
          else cleared.(sub := AdvancePeriod(cleared.sub, now));
        UnmovedFollows(cleared.sub, advanced.sub);
        RequestOutcomeFollows(advanced, Active, now);
        SubscriptionFollowsTransitively(acc.sub, cleared.sub, advanced.sub);
        SubscriptionFollowsTransitively(acc.sub, advanced.sub, TransitionSubscription(advanced, Active, now).account.sub);
      }
    }
  }

  lemma InstallmentFollows(acc: Account, i: nat, charge: Charge, now: Instant)
    requires i < |acc.invoices|
    ensures SubscriptionFollows(acc.sub, ChargeInstallment(acc, i, charge, now).account.sub)
  {
    hide SubscriptionFollows, TransitionInvoice, OpenOrAdvanceDunning, RecordCharge;
    UnmovedFollows(acc.sub, acc.sub);
    DunningFollows(acc, i, Some(InvalidPaymentMethod), now);
    var inv := acc.invoices[i];
    var charged := SetInvoice(acc, i, RecordCharge(inv, inv.amountDue, charge, inv.attemptCount, false, now));
    if charge.Returned? {
      DunningFollows(charged, i, charge.reason, now);
      PaymentFollows(charged, i, Paid, now);
    }
  }

  lemma PlanChangeFollows(acc: Account, newPlan: Plan, charge: Charge, now: Instant)
    ensures SubscriptionFollows(acc.sub, ChangePlan(acc, newPlan, charge, now).account.sub)
  {
    hide SubscriptionFollows, TransitionInvoice, OpenOrAdvanceDunning, RecordCharge, ProrateChange;
    UnmovedFollows(acc.sub, acc.sub);
    if PlanChangeAllowed(acc, newPlan) {
      var proration := ProrateChange(acc.sub, newPlan, now);
      var inv := NewInvoice(proration.netMinor, Some(now), acc.sub.periodEnd, None).(lineItems := proration.lineItems);
      var i := |acc.invoices|;
      var swapped := Account(acc.sub.(plan := newPlan, updatedAt := now), acc.invoices + [inv]);
      var charged := SetInvoice(swapped, i,
        RecordCharge(inv, proration.netMinor, charge, inv.attemptCount, false, now));
      UnmovedFollows(acc.sub, swapped.sub);
      var post := ChangePlan(acc, newPlan, charge, now).account;
      PaymentFollows(swapped, i, Paid, now);
      DunningFollows(swapped, i, Some(InvalidPaymentMethod), now);
      PaymentFollows(charged, i, Paid, now);
      if charge.Returned? { DunningFollows(charged, i, charge.reason, now); }
      UnmovedFollows(swapped.sub, swapped.sub);
      assert SubscriptionFollows(swapped.sub, post.sub);
      SubscriptionFollowsTransitively(acc.sub, swapped.sub, post.sub);
    }
  }

  lemma WebhookFollows(acc: Account, i: nat, eventId: string, now: Instant)
    requires i < |acc.invoices|
    ensures SubscriptionFollows(acc.sub, WebhookSucceeded(acc, i, eventId, now).account.sub)
  {
    hide SubscriptionFollows, TransitionInvoice, TransitionSubscription;
    UnmovedFollows(acc.sub, acc.sub);
    var inv := acc.invoices[i];
    var noted := SetInvoice(acc, i, NotePayment(inv, Success, None, eventId));
    var paid := if inv.status == Paid then Outcome(noted, false) else TransitionInvoice(noted, i, Paid, now);
    PaymentFollows(noted, i, Paid, now);
    if !paid.raised {
      if inv.status == Open { PayingKeepsOthers(noted, i, now); }
      else if inv.status != Paid { CannotPay(noted, i, now); }
      var cleared := SetInvoice(paid.account, i, ClearDunning(paid.account.invoices[i]));
      var started := cleared.(sub := StartPeriod(cleared.sub, now));
      UnmovedFollows(cleared.sub, started.sub);
      RequestOutcomeFollows(started, Active, now);
      SubscriptionFollowsTransitively(acc.sub, cleared.sub, started.sub);
      SubscriptionFollowsTransitively(acc.sub, started.sub, TransitionSubscription(started, Active, now).account.sub);
    }
  }

  lemma TrialFollows(acc: Account, now: Instant)
    ensures SubscriptionFollows(acc.sub, EndTrial(acc, now).account.sub)
  {
    hide SubscriptionFollows, TransitionSubscription;
    var started := acc.(sub := StartPeriod(acc.sub, now));
    UnmovedFollows(acc.sub, acc.sub);
    UnmovedFollows(acc.sub, started.sub);
    RequestOutcomeFollows(started, Active, now);
    RequestOutcomeFollows(acc, Paused, now);
    SubscriptionFollowsTransitively(acc.sub, started.sub, TransitionSubscription(started, Active, now).account.sub);
  }

  lemma SettledFollows(inv: Invoice, now: Instant)
    ensures InvoiceFollows(inv, Settled(inv, now))
    ensures InvoiceFollows(inv, ClearDunning(Settled(inv, now)))
  {
    hide MoveInvoice, InvoiceFollows;
    InvoiceRequestFollows(inv, Paid, now);
    var settled := Settled(inv, now);
    UnmovedInvoiceFollows(inv, inv);
    UnmovedInvoiceFollows(settled, ClearDunning(settled));
    InvoiceFollowsTransitively(inv, settled, ClearDunning(settled));
  }

  lemma ChangeFollows(inv: Invoice, change: Change, now: Instant)
    ensures InvoiceFollows(inv, Apply(inv, change, now))
  {
    hide InvoiceFollows, Settled, NextRetryGapDays;
    var mid := match change
      case ChargePaid(amount, number, isRetry, reason, _) =>
        RecordCharge(inv, amount, Returned(Success, reason), number, isRetry, now)
      case WebhookPaid(eventId, _) => NotePayment(inv, Success, None, eventId)
      case _ => inv;
    UnmovedInvoiceFollows(inv, mid);
    SettledFollows(mid, now);
    InvoiceFollowsTransitively(inv, mid, Settled(mid, now));
    InvoiceFollowsTransitively(inv, mid, ClearDunning(Settled(mid, now)));
    if !change.ChargePaid? && !change.WebhookPaid? && !change.SettleForFree? {
      UnmovedInvoiceFollows(inv, Apply(inv, change, now));
    }
  }

  ghost predicate AccountFollows(a: Account, b: Account) {
    && SubscriptionFollows(a.sub, b.sub)
    && |a.invoices| <= |b.invoices|
    && (forall i :: 0 <= i < |a.invoices| ==> InvoiceFollows(a.invoices[i], b.invoices[i]))
    && (forall i :: |a.invoices| <= i < |b.invoices| ==> IssuedAndFollowed(b.invoices[i]))
  }

  // The same for an invoice that was issued open in between.
  ghost predicate IssuedAndFollowed(inv: Invoice) {
    && Replay(Open, inv.audit, InvoiceMoveAllowed) == Some(inv.status)
    && inv.paidAt == (if inv.status == Paid then LastAudited(inv.audit) else None)
  }

  lemma StepFollows(acc: Account, step: Step, now: Instant)
    ensures AccountFollows(acc, Next(acc, step, now))
  {
    hide Next, SubscriptionFollows, Apply;
    StepFollowsForSubscription(acc, step, now);
    var changed, i, inv, change := StepChange(acc, step, now);
    var post := Next(acc, step, now);
    if changed {
      ChangeFollows(inv, change, now);
      if i == |acc.invoices| { FreshInvoiceReplays(inv, Apply(inv, change, now)); }
    }
    forall j | 0 <= j < |acc.invoices| ensures InvoiceFollows(acc.invoices[j], post.invoices[j]) {
      if !(changed && j == i) { UnmovedInvoiceFollows(acc.invoices[j], post.invoices[j]); }
    }
  }

  lemma FreshInvoiceReplays(inv: Invoice, post: Invoice)
    requires inv.status == Open && inv.audit == [] && inv.paidAt.None? && InvoiceFollows(inv, post)
    ensures IssuedAndFollowed(post)
  {
    assert post.audit[|inv.audit|..] == post.audit;
  }

  lemma AccountFollowsTransitively(a: Account, b: Account, c: Account)
    requires AccountFollows(a, b) && AccountFollows(b, c)
    ensures AccountFollows(a, c)
  {
    hide SubscriptionFollows;
    SubscriptionFollowsTransitively(a.sub, b.sub, c.sub);
    forall i | 0 <= i < |a.invoices| ensures InvoiceFollows(a.invoices[i], c.invoices[i]) {
      InvoiceFollowsTransitively(a.invoices[i], b.invoices[i], c.invoices[i]);
    }
    forall i | |a.invoices| <= i < |b.invoices|
      ensures IssuedAndFollowed(c.invoices[i])
    {
      assert InvoiceFollows(b.invoices[i], c.invoices[i]);
      IssuedStaysFollowed(b.invoices[i], c.invoices[i]);
    }
  }

  lemma IssuedStaysFollowed(x: Invoice, y: Invoice)
    requires IssuedAndFollowed(x) && InvoiceFollows(x, y)
    ensures IssuedAndFollowed(y)
  {
    assert y.audit == x.audit + y.audit[|x.audit|..];
    ReplayInTwoParts(Open, x.audit, y.audit[|x.audit|..], InvoiceMoveAllowed);
    if x.status == Paid { TerminalEndsReplay(x.status, y.audit[|x.audit|..], InvoiceMoveAllowed); }
  }

  // Over every run the audit rows of the subscription and of each invoice form a
  // connected path of allowed edges that replays to the current status: from the
  // status at the start of the run, or from open for an invoice issued in it. And
  // canceled_at and paid_at are the instants at which those statuses were recorded.
  lemma {:induction false} AuditReplaysRun(acc: Account, steps: seq<Timed>)
    ensures AccountFollows(acc, Run(acc, steps))
  {
    hide AccountFollows;
    if steps == [] {
      NothingFollowsItself(acc);
    } else {
      var n := |steps| - 1;
      AuditReplaysRun(acc, steps[..n]);
      StepFollows(Run(acc, steps[..n]), steps[n].step, steps[n].now);
      AccountFollowsTransitively(acc, Run(acc, steps[..n]), Run(acc, steps));
    }
  }

  lemma NothingFollowsItself(acc: Account)
    ensures AccountFollows(acc, acc)
  {
    hide SubscriptionFollows, InvoiceFollows;
    UnmovedFollows(acc.sub, acc.sub);
    forall i | 0 <= i < |acc.invoices| ensures InvoiceFollows(acc.invoices[i], acc.invoices[i]) {
      UnmovedInvoiceFollows(acc.invoices[i], acc.invoices[i]);
    }
  }

  // Terminal statuses absorb: no run moves a subscription or an invoice out of one,
  // or writes another audit row for it.
  lemma TerminalAbsorbs(acc: Account, steps: seq<Timed>)
    ensures var post := Run(acc, steps);
            && (SubscriptionTerminal(acc.sub.status) ==>
                  post.sub.status == acc.sub.status && post.sub.audit == acc.sub.audit)
            && |acc.invoices| <= |post.invoices|
            && (forall i :: 0 <= i < |acc.invoices| && InvoiceTerminal(acc.invoices[i].status) ==>
                  post.invoices[i].status == acc.invoices[i].status &&
                  post.invoices[i].audit == acc.invoices[i].audit &&
                  (acc.invoices[i].paidAt.Some? ==> post.invoices[i].paidAt == acc.invoices[i].paidAt))
  {
    hide Run;
    AuditReplaysRun(acc, steps);
    var post := Run(acc, steps);
    if SubscriptionTerminal(acc.sub.status) {
      TerminalEndsReplay(acc.sub.status, post.sub.audit[|acc.sub.audit|..], SubscriptionMoveAllowed);
    }
    forall i | 0 <= i < |acc.invoices| && InvoiceTerminal(acc.invoices[i].status)
      ensures post.invoices[i].audit == acc.invoices[i].audit && post.invoices[i].status == acc.invoices[i].status
    {
      assert InvoiceFollows(acc.invoices[i], post.invoices[i]);
      TerminalEndsReplay(acc.invoices[i].status, post.invoices[i].audit[|acc.invoices[i].audit|..], InvoiceMoveAllowed);
    }
  }

  // No edge enters defaulted: no run reaches it, and the grace worker's request for
  // it is refused for every installment subscription, which stays unpaid.
  lemma DefaultedIsUnreachable(acc: Account, steps: seq<Timed>)
    requires acc.sub.status != Defaulted
    ensures Run(acc, steps).sub.status != Defaulted
  {
    hide Run;
    AuditReplaysRun(acc, steps);
    var rows := Run(acc, steps).sub.audit[|acc.sub.audit|..];
    if rows != [] { assert SubscriptionMoveAllowed(rows[|rows| - 1].oldStatus, rows[|rows| - 1].newStatus); }
  }

  lemma GraceRevokesIff(acc: Account, now: Instant)
    requires GraceExpired(acc, now)
    ensures var post := ExpireGrace(acc, now);
            && (post.raised <==> acc.sub.kind == Installment)
            && (post.raised ==> post.account == acc)
            && (!post.raised ==> post.account.sub.status == Canceled && post.account.sub.canceledAt.Some?)
  {}
}
