// Billing periods tile: renewals and recoveries pay one period after the other,
// each exactly once.
module Tiling {
  import opened Prelude
  import opened Calendar
  import opened RetryPolicy
  import opened Model
  import opened Billing
  import opened Changes
  import Lifecycle
  import Installments

  // The steps of a subscription that is neither moved to another plan nor paid
  // behind the engine's back.
  predicate RenewalStep(step: Step) {
    step.RenewStep? || step.RetryStep? || step.GraceStep? || step.PauseStep? ||
    step.ResumeStep? || step.CancelStep? || step.CardStep? || step.WebhookFailureStep?
  }

  // The k-th boundary of the periods that follow [start, end).
  function Boundary(start: Instant, end: Instant, plan: Plan, k: nat): Instant {
    if k == 0 then start else Iterate(end, plan.interval, plan.intervalCount, k - 1)
  }

  // The amount that the successful calls of an invoice collected.
  function Collected(calls: seq<ProviderCall>): int {
    if calls == [] then 0
    else
      var last := calls[|calls| - 1];
      Collected(calls[..|calls| - 1]) +
        (if last.charge.Returned? && last.charge.status == Success then last.amountMinor else 0)
  }

  lemma CollectedAppend(calls: seq<ProviderCall>, call: ProviderCall)
    ensures Collected(calls + [call]) == Collected(calls) +
              (if call.charge.Returned? && call.charge.status == Success then call.amountMinor else 0)
  {
    assert (calls + [call])[..|calls|] == calls;
  }

  function TotalCollected(invoices: seq<Invoice>): int {
    if invoices == [] then 0
    else TotalCollected(invoices[..|invoices| - 1]) + Collected(invoices[|invoices| - 1].calls)
  }

  // The invoices issued from index base on that have been paid: all of them, except
  // possibly the last.
  function PaidPeriods(acc: Account, base: nat): nat
    requires base <= |acc.invoices|
  {
    var n := |acc.invoices| - base;
    if n > 0 && acc.invoices[|acc.invoices| - 1].status == Open then n - 1 else n
  }

  ghost predicate PeriodOk(inv: Invoice, k: nat, start: Instant, end: Instant, plan: Plan) {
    && inv.periodStart == Some(Boundary(start, end, plan, k))
    && inv.periodEnd == Some(Boundary(start, end, plan, k + 1))
    && inv.amountDue == plan.amount
    && (inv.status == Paid || inv.status == Open)
    && Collected(inv.calls) == (if inv.status == Paid then plan.amount else 0)
  }

  ghost predicate Tiled(acc: Account, base: nat, start: Instant, end: Instant, plan: Plan) {
    && acc.sub.kind == Recurring && acc.sub.plan == plan
    && base <= |acc.invoices|
    && (forall j :: 0 <= j < base ==> acc.invoices[j].status != Open)
    && (forall j :: base <= j < |acc.invoices| ==> PeriodOk(acc.invoices[j], j - base, start, end, plan))
    && (forall j :: base <= j < |acc.invoices| - 1 ==> acc.invoices[j].status == Paid)
    && acc.sub.periodStart == Some(Boundary(start, end, plan, PaidPeriods(acc, base)))
    && acc.sub.periodEnd == Some(Boundary(start, end, plan, PaidPeriods(acc, base) + 1))
  }

  lemma BoundarySteps(start: Instant, end: Instant, plan: Plan, k: nat)
    ensures AdvanceBillingPeriod(Boundary(start, end, plan, k + 1), plan.interval, plan.intervalCount)
            == Boundary(start, end, plan, k + 2)
  {}

  // A change of the last invoice that leaves its terms alone, and the period of the
  // subscription with it, keeps the tiling.
  lemma UnpaidChange(acc: Account, post: Account, base: nat, start: Instant, end: Instant, plan: Plan)
    requires Tiled(acc, base, start, end, plan)
    requires base < |acc.invoices| && acc.invoices[|acc.invoices| - 1].status == Open
    requires var n := |acc.invoices| - 1;
             && |post.invoices| == |acc.invoices| && post.invoices == acc.invoices[n := post.invoices[n]]
             && SameTerms(acc.invoices[n], post.invoices[n])
             && post.invoices[n].status == Open
             && Collected(post.invoices[n].calls) == Collected(acc.invoices[n].calls)
    requires SameSchedule(acc.sub, post.sub)
    ensures Tiled(post, base, start, end, plan)
  {
    hide Boundary, Collected;
  }

  predicate SameTerms(a: Invoice, b: Invoice) {
    a.periodStart == b.periodStart && a.periodEnd == b.periodEnd && a.amountDue == b.amountDue
  }

  predicate SameSchedule(a: Subscription, b: Subscription) {
    a.kind == b.kind && a.plan == b.plan && a.periodStart == b.periodStart && a.periodEnd == b.periodEnd
  }

  // Paying the last invoice and advancing the period keeps it too.
  lemma PaidChange(acc: Account, post: Account, base: nat, start: Instant, end: Instant, plan: Plan)
    requires Tiled(acc, base, start, end, plan)
    requires base < |acc.invoices| && acc.invoices[|acc.invoices| - 1].status == Open
    requires var n := |acc.invoices| - 1;
             && |post.invoices| == |acc.invoices| && post.invoices == acc.invoices[n := post.invoices[n]]
             && SameTerms(acc.invoices[n], post.invoices[n])
             && post.invoices[n].status == Paid
             && Collected(post.invoices[n].calls) == plan.amount
    requires post.sub.kind == acc.sub.kind && post.sub.plan == acc.sub.plan
    requires acc.sub.periodEnd.Some? && post.sub.periodStart == acc.sub.periodEnd
    requires post.sub.periodEnd ==
             Some(AdvanceBillingPeriod(acc.sub.periodEnd.value, plan.interval, plan.intervalCount))
    ensures Tiled(post, base, start, end, plan)
    ensures PaidPeriods(post, base) == PaidPeriods(acc, base) + 1
  {
    hide Boundary, Collected, AdvanceBillingPeriod;
    BoundarySteps(start, end, plan, PaidPeriods(acc, base));
  }

  // The charge of the last invoice, by whichever worker, for the plan's amount.
  lemma RecordCollects(inv: Invoice, amount: int, charge: Charge, number: nat, isRetry: bool, now: Instant)
    ensures var post := RecordCharge(inv, amount, charge, number, isRetry, now);
            && SameTerms(inv, post) && post.status == inv.status
            && Collected(post.calls) == Collected(inv.calls) +
                 (if charge.Returned? && charge.status == Success then amount else 0)
  {
    CollectedAppend(inv.calls, ProviderCall(inv.attemptCount, amount, charge, isRetry, now));
  }

  lemma DunningKeepsBill(acc: Account, i: nat, reason: Option<FailureReason>, now: Instant)
    requires i < |acc.invoices|
    ensures var post := OpenOrAdvanceDunning(acc, i, reason, now);
            && |post.invoices| == |acc.invoices| && post.invoices == acc.invoices[i := post.invoices[i]]
            && SameTerms(acc.invoices[i], post.invoices[i])
            && post.invoices[i].status == acc.invoices[i].status && post.invoices[i].calls == acc.invoices[i].calls
            && SameSchedule(acc.sub, post.sub)
  {
    hide CountRetries, NextRetryGapDays, RequiresPaymentMethodUpdate, SubscriptionMoveAllowed;
  }

  lemma DeclinedKeepsTiling(acc: Account, inv: Invoice, base: nat, start: Instant, end: Instant, plan: Plan,
                            reason: Option<FailureReason>, now: Instant)
    requires Tiled(acc, base, start, end, plan)
    requires base < |acc.invoices| && acc.invoices[|acc.invoices| - 1].status == Open
    requires SameTerms(acc.invoices[|acc.invoices| - 1], inv) && inv.status == Open
    requires Collected(inv.calls) == Collected(acc.invoices[|acc.invoices| - 1].calls)
    ensures var n := |acc.invoices| - 1;
            Tiled(OpenOrAdvanceDunning(SetInvoice(acc, n, inv), n, reason, now), base, start, end, plan)
  {
    hide Boundary, Collected, OpenOrAdvanceDunning, Tiled;
    var n := |acc.invoices| - 1;
    var charged := SetInvoice(acc, n, inv);
    var post := OpenOrAdvanceDunning(charged, n, reason, now);
    DunningKeepsBill(charged, n, reason, now);
    UnpaidChange(acc, post, base, start, end, plan);
  }

  lemma ChargeRenewalKeepsTiling(acc: Account, base: nat, start: Instant, end: Instant, plan: Plan,
                                 charge: Charge, now: Instant)
    requires Tiled(acc, base, start, end, plan)
    requires base < |acc.invoices| && acc.invoices[|acc.invoices| - 1].status == Open
    ensures var post := ChargeRenewal(acc, |acc.invoices| - 1, charge, now).account;
            && Tiled(post, base, start, end, plan)
            && (acc.sub.hasCard && charge.Returned? && charge.status == Success ==>
                  PaidPeriods(post, base) == PaidPeriods(acc, base) + 1)
  {
    hide Boundary, Collected, OpenOrAdvanceDunning, TransitionInvoice, RecordCharge, AdvanceBillingPeriod;
    var n := |acc.invoices| - 1;
    if !acc.sub.hasCard {
      DeclinedKeepsTiling(acc, acc.invoices[n], base, start, end, plan, Some(InvalidPaymentMethod), now);
      assert SetInvoice(acc, n, acc.invoices[n]) == acc;
    } else {
      var charged := SetInvoice(acc, n, RecordCharge(acc.invoices[n], plan.amount, charge, 0, false, now));
      RecordCollects(acc.invoices[n], plan.amount, charge, 0, false, now);
      var post := ChargeRenewal(acc, n, charge, now).account;
      if charge.Raised? {
        UnpaidChange(acc, post, base, start, end, plan);
      } else if charge.status == Success {
        PayingKeepsOthers(charged, n, now);
        PaidChange(acc, post, base, start, end, plan);
      } else {
        DeclinedKeepsTiling(acc, charged.invoices[n], base, start, end, plan, charge.reason, now);
      }
    }
  }

  lemma RenewKeepsTiling(acc: Account, base: nat, start: Instant, end: Instant, plan: Plan, charge: Charge, now: Instant)
    requires Tiled(acc, base, start, end, plan) && RenewalDue(acc, now)
    ensures Tiled(Renew(acc, charge, now).account, base, start, end, plan)
    ensures acc.sub.hasCard && charge.Returned? && charge.status == Success ==>
              PaidPeriods(Renew(acc, charge, now).account, base) == PaidPeriods(acc, base) + 1
  {
    hide Boundary, Collected, ChargeRenewal;
    var n := |acc.invoices|;
    if n > base && acc.invoices[n - 1].status == Open {
      OpenForPeriodUnique(acc.invoices, acc.sub.periodStart, n - 1);
      assert Renew(acc, charge, now) == ChargeRenewal(acc, n - 1, charge, now);
      ChargeRenewalKeepsTiling(acc, base, start, end, plan, charge, now);
    } else {
      NoneMatchNoneFound(acc.invoices, acc.sub.periodStart);
      var billed := acc.(invoices := acc.invoices +
        [NewInvoice(plan.amount, acc.sub.periodStart, acc.sub.periodEnd, None)]);
      assert Renew(acc, charge, now) == ChargeRenewal(billed, n, charge, now);
      IssuingKeepsTiling(acc, base, start, end, plan);
      ChargeRenewalKeepsTiling(billed, base, start, end, plan, charge, now);
    }
  }

  lemma IssuingKeepsTiling(acc: Account, base: nat, start: Instant, end: Instant, plan: Plan)
    requires Tiled(acc, base, start, end, plan)
    requires |acc.invoices| == base || acc.invoices[|acc.invoices| - 1].status != Open
    ensures var billed := acc.(invoices := acc.invoices +
              [NewInvoice(plan.amount, acc.sub.periodStart, acc.sub.periodEnd, None)]);
            Tiled(billed, base, start, end, plan) && PaidPeriods(billed, base) == PaidPeriods(acc, base)
  {
    hide Boundary;
  }

  lemma RetryKeepsTiling(acc: Account, base: nat, start: Instant, end: Instant, plan: Plan,
                         i: nat, charge: Charge, now: Instant)
    requires Tiled(acc, base, start, end, plan)
    requires i < |acc.invoices| && RetryDue(acc.invoices[i], now)
    ensures Tiled(Retry(acc, i, charge, now).account, base, start, end, plan)
  {
    hide Boundary, Collected, OpenOrAdvanceDunning, RecordCharge, AdvanceBillingPeriod;
    assert i == |acc.invoices| - 1;
    var inv := acc.invoices[i];
    var post := Retry(acc, i, charge, now).account;
    if acc.sub.status != PastDue || !acc.sub.hasCard {
      UnpaidChange(acc, post, base, start, end, plan);
    } else {
      var charged := RecordCharge(inv, inv.amountDue, charge, inv.attemptCount, true, now);
      RecordCollects(inv, inv.amountDue, charge, inv.attemptCount, true, now);
      if charge.Raised? {
        UnpaidChange(acc, post, base, start, end, plan);
      } else if charge.status == Success {
        RecoveryAdvances(acc, i, charge, now);
        PaidChange(acc, post, base, start, end, plan);
      } else {
        DeclinedKeepsTiling(acc, charged, base, start, end, plan, charge.reason, now);
      }
    }
  }

  // A successful retry pays its invoice, whichever it is, and moves the
  // subscription to the next period.
  lemma RecoveryAdvances(acc: Account, i: nat, charge: Charge, now: Instant)
    requires i < |acc.invoices| && RetryDue(acc.invoices[i], now)
    requires acc.sub.status == PastDue && acc.sub.hasCard && acc.sub.kind == Recurring
    requires acc.sub.periodEnd.Some? && charge.Returned? && charge.status == Success
    ensures var post := Retry(acc, i, charge, now).account;
            var inv := acc.invoices[i];
            var charged := RecordCharge(inv, inv.amountDue, charge, inv.attemptCount, true, now);
            && post.invoices == acc.invoices[i := ClearDunning(Settled(charged, now))]
            && post.invoices[i].status == Paid && post.invoices[i].calls == charged.calls
            && SameTerms(inv, post.invoices[i])
            && post.sub.status == Active && post.sub.kind == Recurring && post.sub.plan == acc.sub.plan
            && post.sub.periodStart == acc.sub.periodEnd
            && post.sub.periodEnd == Some(AdvanceBillingPeriod(acc.sub.periodEnd.value,
                                            acc.sub.plan.interval, acc.sub.plan.intervalCount))
  {
    hide AdvanceBillingPeriod;
  }

  lemma StepKeepsTiling(acc: Account, base: nat, start: Instant, end: Instant, plan: Plan, step: Step, now: Instant)
    requires Tiled(acc, base, start, end, plan) && RenewalStep(step)
    ensures Tiled(Next(acc, step, now), base, start, end, plan)
  {
    hide Renew, Retry, Boundary, Collected;
    match step
    case RenewStep(charge) =>
      if RenewalDue(acc, now) { RenewKeepsTiling(acc, base, start, end, plan, charge, now); }
    case RetryStep(i, charge) =>
      if i < |acc.invoices| && RetryDue(acc.invoices[i], now) {
        RetryKeepsTiling(acc, base, start, end, plan, i, charge, now);
      }
    case WebhookFailureStep(i, eventId) =>
      if i < |acc.invoices| { ReportedDeclineKeepsTiling(acc, base, start, end, plan, i, eventId, now); }
    case _ => QuietKeepsTiling(acc, base, start, end, plan, step, now);
  }

  // A decline reported by webhook, for whichever invoice, bills nothing and pays
  // nothing.
  lemma ReportedDeclineKeepsTiling(acc: Account, base: nat, start: Instant, end: Instant, plan: Plan,
                                   i: nat, eventId: string, now: Instant)
    requires Tiled(acc, base, start, end, plan) && i < |acc.invoices|
    ensures Tiled(WebhookFailed(acc, i, eventId, now).account, base, start, end, plan)
  {
    hide Boundary, Collected, OpenOrAdvanceDunning;
    var noted := SetInvoice(acc, i, NotePayment(acc.invoices[i], Failed, Some(CardDeclined), eventId));
    DunningKeepsBill(noted, i, Some(CardDeclined), now);
    SameBillsKeepTiling(acc, WebhookFailed(acc, i, eventId, now).account, base, start, end, plan, i);
  }

  lemma SameBillsKeepTiling(acc: Account, post: Account, base: nat, start: Instant, end: Instant, plan: Plan, i: nat)
    requires Tiled(acc, base, start, end, plan) && i < |acc.invoices| == |post.invoices|
    requires post.invoices == acc.invoices[i := post.invoices[i]]
    requires SameTerms(acc.invoices[i], post.invoices[i])
    requires post.invoices[i].status == acc.invoices[i].status && post.invoices[i].calls == acc.invoices[i].calls
    requires SameSchedule(acc.sub, post.sub)
    ensures Tiled(post, base, start, end, plan)
  {
    hide Boundary, Collected;
  }

  lemma QuietKeepsTiling(acc: Account, base: nat, start: Instant, end: Instant, plan: Plan, step: Step, now: Instant)
    requires Tiled(acc, base, start, end, plan)
    requires step.GraceStep? || step.PauseStep? || step.ResumeStep? || step.CancelStep? || step.CardStep?
    ensures Tiled(Next(acc, step, now), base, start, end, plan)
  {
    hide Boundary, Collected;
    var post := Next(acc, step, now);
    assert post.invoices == acc.invoices && SameSchedule(acc.sub, post.sub);
  }

  lemma {:induction false} RunKeepsTiling(acc: Account, base: nat, start: Instant, end: Instant, plan: Plan,
                                          steps: seq<Timed>)
    requires Tiled(acc, base, start, end, plan)
    requires forall k :: 0 <= k < |steps| ==> RenewalStep(steps[k].step)
    ensures Tiled(Run(acc, steps), base, start, end, plan)
  {
    hide Tiled, Next;
    if steps != [] {
      var n := |steps| - 1;
      RunKeepsTiling(acc, base, start, end, plan, steps[..n]);
      StepKeepsTiling(Run(acc, steps[..n]), base, start, end, plan, steps[n].step, steps[n].now);
    }
  }

  lemma {:induction false} TotalOfTiles(invoices: seq<Invoice>, base: nat, amount: int, paid: nat)
    requires base <= |invoices| && (|invoices| - base == paid || |invoices| - base == paid + 1)
    requires forall j :: base <= j < base + paid ==> Collected(invoices[j].calls) == amount
    requires |invoices| - base == paid + 1 ==> Collected(invoices[|invoices| - 1].calls) == 0
    ensures TotalCollected(invoices[base..]) == amount * paid
    decreases paid, |invoices|
  {
    if |invoices| == base {
      assert invoices[base..] == [];
    } else {
      var shorter := invoices[..|invoices| - 1];
      assert invoices[base..][..|invoices[base..]| - 1] == shorter[base..];
      if |invoices| - base == paid + 1 {
        TotalOfTiles(shorter, base, amount, paid);
      } else {
        TotalOfTiles(shorter, base, amount, paid - 1);
        assert amount * paid == amount * (paid - 1) + amount;
      }
    }
  }

  // From any recurring subscription with a period and no open invoice, every run of
  // renewals, retries, reported declines, grace, pause, resume and cancel steps issues invoices for
  // consecutive periods: the first m are paid and cover the periods the
  // subscription has left behind, at most one more is open and is for the current
  // period, and the successful charges add up to m times the plan's amount.
  lemma PeriodsTile(acc: Account, start: Instant, end: Instant, steps: seq<Timed>)
    requires acc.sub.kind == Recurring
    requires acc.sub.periodStart == Some(start) && acc.sub.periodEnd == Some(end)
    requires forall j :: 0 <= j < |acc.invoices| ==> acc.invoices[j].status != Open
    requires forall k :: 0 <= k < |steps| ==> RenewalStep(steps[k].step)
    ensures var post, base, plan := Run(acc, steps), |acc.invoices|, acc.sub.plan;
            base <= |post.invoices| &&
            var m := PaidPeriods(post, base);
            && post.sub.plan == plan
            && post.sub.periodStart == Some(Boundary(start, end, plan, m))
            && post.sub.periodEnd == Some(Boundary(start, end, plan, m + 1))
            && (|post.invoices| == base + m || |post.invoices| == base + m + 1)
            && (forall j :: base <= j < |post.invoices| ==> post.invoices[j].amountDue == plan.amount)
            && (forall j :: base <= j < base + m ==>
                  && post.invoices[j].status == Paid
                  && post.invoices[j].periodStart == Some(Boundary(start, end, plan, j - base))
                  && post.invoices[j].periodEnd == Some(Boundary(start, end, plan, j - base + 1))
                  && Collected(post.invoices[j].calls) == plan.amount)
            && (|post.invoices| == base + m + 1 ==>
                  && post.invoices[base + m].status == Open
                  && post.invoices[base + m].periodStart == post.sub.periodStart
                  && post.invoices[base + m].periodEnd == post.sub.periodEnd)
            && TotalCollected(post.invoices[base..]) == plan.amount * m
  {
    hide Boundary, Collected, Run;
    var base, plan := |acc.invoices|, acc.sub.plan;
    FirstBoundaries(start, end, plan);
    RunKeepsTiling(acc, base, start, end, plan, steps);
    var post := Run(acc, steps);
    var m := PaidPeriods(post, base);
    forall j | base <= j < |post.invoices| ensures post.invoices[j].amountDue == plan.amount {
      assert PeriodOk(post.invoices[j], j - base, start, end, plan);
    }
    forall j | base <= j < base + m ensures post.invoices[j].status == Paid {
      assert PeriodOk(post.invoices[j], j - base, start, end, plan);
    }
    if |post.invoices| == base + m + 1 {
      assert PeriodOk(post.invoices[base + m], base + m - base, start, end, plan);
    }
    TotalOfTiles(post.invoices, base, plan.amount, m);
  }

  lemma FirstBoundaries(start: Instant, end: Instant, plan: Plan)
    ensures Boundary(start, end, plan, 0) == start && Boundary(start, end, plan, 1) == end
  {}

  // With a positive interval count the periods are disjoint, so no period is paid
  // twice.
  lemma {:induction false} BoundariesIncrease(start: Instant, end: Instant, plan: Plan, j: nat, k: nat)
    requires start < end && plan.intervalCount >= 1 && j < k
    ensures Boundary(start, end, plan, j) < Boundary(start, end, plan, k)
    decreases k - j
  {
    hide AdvanceBillingPeriod;
    if k >= 2 {
      AdvanceMakesProgress(Boundary(start, end, plan, k - 1), plan.interval, plan.intervalCount);
      BoundarySteps(start, end, plan, k - 2);
    }
    if j < k - 1 { BoundariesIncrease(start, end, plan, j, k - 1); }
  }

  // ----------------------------------------------------------------- catching up

  function RenewTimes(acc: Account, n: nat, now: Instant): Account {
    if n == 0 then acc
    else Next(RenewTimes(acc, n - 1, now), RenewStep(Returned(Success, None)), now)
  }

  // An overdue subscription with a card on file is brought past any instant by
  // finitely many successful renewals, at most one per day it was behind.
  lemma RenewalsCatchUp(acc: Account, start: Instant, end: Instant, now: Instant) returns (n: nat)
    requires acc.sub.kind == Recurring && acc.sub.status == Active && acc.sub.hasCard
    requires acc.sub.periodStart == Some(start) && acc.sub.periodEnd == Some(end)
    requires forall j :: 0 <= j < |acc.invoices| ==> acc.invoices[j].status != Open
    requires acc.sub.plan.intervalCount >= 1
    ensures var post := RenewTimes(acc, n, now);
            && post.sub.status == Active && post.sub.periodEnd.Some? && post.sub.periodEnd.value > now
            && Days(n) <= Days(1) + (if now > end then now - end else 0)
  {
    hide Iterate;
    n := if now < end then 0 else (now - end) / 86_400_000_000 + 1;
    RenewedEnough(acc, start, end, now, n);
  }

  lemma {:induction false} RenewedEnough(acc: Account, start: Instant, end: Instant, now: Instant, n: nat)
    requires acc.sub.kind == Recurring && acc.sub.status == Active && acc.sub.hasCard
    requires acc.sub.periodStart == Some(start) && acc.sub.periodEnd == Some(end)
    requires forall j :: 0 <= j < |acc.invoices| ==> acc.invoices[j].status != Open
    requires acc.sub.plan.intervalCount >= 1
    ensures var post := RenewTimes(acc, n, now);
            && post.sub.status == Active && post.sub.hasCard
            && Tiled(post, |acc.invoices|, start, end, acc.sub.plan)
            && post.sub.periodEnd.Some?
            && (post.sub.periodEnd.value > now || post.sub.periodEnd.value >= end + Days(n))
  {
    hide Tiled, Renew, AdvanceBillingPeriod;
    if n == 0 {
      StartsTiled(acc, start, end);
    } else {
      RenewedEnough(acc, start, end, now, n - 1);
      var prior := RenewTimes(acc, n - 1, now);
      if RenewalDue(prior, now) {
        TiledIsRecurring(prior, |acc.invoices|, start, end, acc.sub.plan);
        RenewKeepsTiling(prior, |acc.invoices|, start, end, acc.sub.plan, Returned(Success, None), now);
        SuccessfulRenewalAdvances(prior, |acc.invoices|, start, end, acc.sub.plan, now);
        AdvanceMakesProgress(prior.sub.periodEnd.value, prior.sub.plan.interval, prior.sub.plan.intervalCount);
      } else {
        TiledIsRecurring(prior, |acc.invoices|, start, end, acc.sub.plan);
      }
    }
  }

  lemma StartsTiled(acc: Account, start: Instant, end: Instant)
    requires acc.sub.kind == Recurring
    requires acc.sub.periodStart == Some(start) && acc.sub.periodEnd == Some(end)
    requires forall j :: 0 <= j < |acc.invoices| ==> acc.invoices[j].status != Open
    ensures Tiled(acc, |acc.invoices|, start, end, acc.sub.plan)
  {
    FirstBoundaries(start, end, acc.sub.plan);
  }

  lemma TiledIsRecurring(acc: Account, base: nat, start: Instant, end: Instant, plan: Plan)
    requires Tiled(acc, base, start, end, plan)
    ensures acc.sub.kind == Recurring && acc.sub.plan == plan
  {}

  lemma SuccessfulRenewalAdvances(acc: Account, base: nat, start: Instant, end: Instant, plan: Plan, now: Instant)
    requires Tiled(acc, base, start, end, plan) && RenewalDue(acc, now) && acc.sub.hasCard
    ensures var post := Renew(acc, Returned(Success, None), now).account;
            && post.sub.status == Active && post.sub.hasCard
            && post.sub.periodEnd == Some(AdvanceBillingPeriod(acc.sub.periodEnd.value, plan.interval, plan.intervalCount))
  {
    hide Boundary, Collected, AdvanceBillingPeriod;
    var n := |acc.invoices|;
    if n > base && acc.invoices[n - 1].status == Open {
      OpenForPeriodUnique(acc.invoices, acc.sub.periodStart, n - 1);
    } else {
      NoneMatchNoneFound(acc.invoices, acc.sub.periodStart);
    }
  }

  // ------------------------------------------------------------- from activation

  // A payment reported by webhook pays its invoice and starts a period at that
  // instant, whether it activates the subscription or recovers it from dunning.
  lemma PaymentActivates(acc: Account, i: nat, eventId: string, now: Instant)
    requires acc.sub.kind == Recurring && acc.sub.status in {Incomplete, PastDue}
    requires i < |acc.invoices| && acc.invoices[i].status == Open
    ensures var post := Next(acc, WebhookSuccessStep(i, eventId), now);
            && post.sub.status == Active && post.sub.kind == Recurring && post.sub.plan == acc.sub.plan
            && post.sub.periodStart == Some(now)
            && post.sub.periodEnd == Some(AdvanceBillingPeriod(now, acc.sub.plan.interval, acc.sub.plan.intervalCount))
            && |post.invoices| == |acc.invoices| && post.invoices == acc.invoices[i := post.invoices[i]]
            && SameTerms(acc.invoices[i], post.invoices[i]) && post.invoices[i].status == Paid
            && post.invoices[i].nextRetryAt.None? && post.invoices[i].dunningReason.None?
  {
    hide AdvanceBillingPeriod, ComputePeriodEnd, Next, Settled;
    IntervalTablesAgree(now, acc.sub.plan.interval, acc.sub.plan.intervalCount, 0);
    SettlingActivates(acc, i, eventId, now);
    SettledIsPaid(NotePayment(acc.invoices[i], Success, None, eventId), now);
  }

  lemma SettledIsPaid(inv: Invoice, now: Instant)
    requires inv.status == Open
    ensures Settled(inv, now).status == Paid && SameTerms(inv, Settled(inv, now))
  {}

  lemma SettlingActivates(acc: Account, i: nat, eventId: string, now: Instant)
    requires acc.sub.kind == Recurring && acc.sub.status in {Incomplete, PastDue}
    requires i < |acc.invoices| && acc.invoices[i].status == Open
    ensures var post := Next(acc, WebhookSuccessStep(i, eventId), now);
            var inv := NotePayment(acc.invoices[i], Success, None, eventId);
            && MoveSubscription(StartPeriod(acc.sub, now), Active, now) == Some(post.sub)
            && post.invoices == acc.invoices[i := ClearDunning(Settled(inv, now))]
  {
    hide ComputePeriodEnd, TransitionInvoice, MoveSubscription, Settled;
    SuccessIsStep(acc, i, eventId, now);
    hide Next;
    var noted := SetInvoice(acc, i, NotePayment(acc.invoices[i], Success, None, eventId));
    PayingKeepsOthers(noted, i, now);
    assert MoveSubscription(StartPeriod(acc.sub, now), Active, now).Some? by {
      Lifecycle.RequestFollows(StartPeriod(acc.sub, now), Active, now);
    }
  }

  lemma SuccessIsStep(acc: Account, i: nat, eventId: string, now: Instant)
    requires i < |acc.invoices|
    ensures Next(acc, WebhookSuccessStep(i, eventId), now) == WebhookSucceeded(acc, i, eventId, now).account
  {}

  // A recurring subscription from its checkout on, whatever follows of renewals,
  // retries, reported declines, grace, pauses, resumes and cancellation. The checkout
  // invoice is paid and stays as it was paid; the renewal invoices cover the multiples
  // of the interval counted from the activation; what the renewals collected is the
  // plan's amount for each period left behind, and what was paid altogether is one
  // amount more.
  lemma ActivatedSubscriptionTiles(acc: Account, eventId: string, now: Instant, steps: seq<Timed>)
    requires acc.sub.kind == Recurring && acc.sub.status == Incomplete
    requires |acc.invoices| == 1 && acc.invoices[0].status == Open
    requires acc.invoices[0].amountDue == acc.sub.plan.amount
    requires forall k :: 0 <= k < |steps| ==> RenewalStep(steps[k].step)
    ensures var post := Run(Next(acc, WebhookSuccessStep(0, eventId), now), steps);
            var plan := acc.sub.plan;
            |post.invoices| >= 1 &&
            var m := PaidPeriods(post, 1);
            && |post.invoices| in {1 + m, 2 + m}
            && post.sub.periodStart == Some(Iterate(now, plan.interval, plan.intervalCount, m))
            && post.invoices[0].status == Paid && SameTerms(acc.invoices[0], post.invoices[0])
            && (forall j :: 1 <= j < |post.invoices| ==>
                  && post.invoices[j].periodStart == Some(Iterate(now, plan.interval, plan.intervalCount, j - 1))
                  && post.invoices[j].periodEnd == Some(Iterate(now, plan.interval, plan.intervalCount, j))
                  && (post.invoices[j].status == Paid <==> j <= m))
            && TotalCollected(post.invoices[1..]) == plan.amount * m
            && TotalPaid(post.invoices) == plan.amount * (m + 1)
  {
    hide Next, Run, AdvanceBillingPeriod, TotalCollected, TotalPaid, PaidPeriods, Iterate, RenewalStep;
    var active := Next(acc, WebhookSuccessStep(0, eventId), now);
    PaymentActivates(acc, 0, eventId, now);
    ActiveTiles(active, now, steps);
    PaidStaysPaid(active, steps);
    var post := Run(active, steps);
    TotalPaidOfFirst(post.invoices, acc.sub.plan.amount, PaidPeriods(post, 1) + 1);
  }

  // The same from the activated subscription on, invoice by invoice.
  lemma ActiveTiles(acc: Account, now: Instant, steps: seq<Timed>)
    requires acc.sub.kind == Recurring && |acc.invoices| == 1 && acc.invoices[0].status == Paid
    requires acc.sub.periodStart == Some(now)
    requires acc.sub.periodEnd == Some(AdvanceBillingPeriod(now, acc.sub.plan.interval, acc.sub.plan.intervalCount))
    requires forall k :: 0 <= k < |steps| ==> RenewalStep(steps[k].step)
    ensures var post, plan := Run(acc, steps), acc.sub.plan;
            |post.invoices| >= 1 &&
            var m := PaidPeriods(post, 1);
            && |post.invoices| in {1 + m, 2 + m}
            && post.sub.periodStart == Some(Iterate(now, plan.interval, plan.intervalCount, m))
            && (forall j :: 1 <= j < |post.invoices| ==>
                  && post.invoices[j].periodStart == Some(Iterate(now, plan.interval, plan.intervalCount, j - 1))
                  && post.invoices[j].periodEnd == Some(Iterate(now, plan.interval, plan.intervalCount, j))
                  && (post.invoices[j].status == Paid <==> j <= m)
                  && post.invoices[j].amountDue == plan.amount)
            && TotalCollected(post.invoices[1..]) == plan.amount * m
  {
    hide Run, Boundary, AdvanceBillingPeriod, TotalCollected, Collected, PaidPeriods, Iterate, RenewalStep;
    var plan := acc.sub.plan;
    var end := AdvanceBillingPeriod(now, plan.interval, plan.intervalCount);
    PeriodsTile(acc, now, end, steps);
    var post := Run(acc, steps);
    var m := PaidPeriods(post, 1);
    BoundaryIterates(now, plan, m);
    forall j | 1 <= j < |post.invoices|
      ensures post.invoices[j].periodStart == Some(Iterate(now, plan.interval, plan.intervalCount, j - 1))
      ensures post.invoices[j].periodEnd == Some(Iterate(now, plan.interval, plan.intervalCount, j))
    {
      BoundaryIterates(now, plan, j - 1);
      BoundaryIterates(now, plan, j);
    }
  }

  // What the paid invoices billed.
  function TotalPaid(invoices: seq<Invoice>): int {
    if invoices == [] then 0
    else
      var last := invoices[|invoices| - 1];
      TotalPaid(invoices[..|invoices| - 1]) + (if last.status == Paid then last.amountDue else 0)
  }

  lemma {:induction false} TotalPaidOfFirst(invoices: seq<Invoice>, amount: int, n: nat)
    requires n <= |invoices|
    requires forall j :: 0 <= j < |invoices| ==> (invoices[j].status == Paid <==> j < n)
    requires forall j :: 0 <= j < n ==> invoices[j].amountDue == amount
    ensures TotalPaid(invoices) == amount * n
  {
    if invoices != [] {
      var last := |invoices| - 1;
      TotalPaidOfFirst(invoices[..last], amount, if n <= last then n else n - 1);
      if n > last { assert amount * n == amount * (n - 1) + amount; }
    }
  }

  // A paid invoice stays paid, and no invoice changes its terms.
  lemma {:induction false} PaidStaysPaid(acc: Account, steps: seq<Timed>)
    ensures |acc.invoices| <= |Run(acc, steps).invoices|
    ensures forall i :: 0 <= i < |acc.invoices| && acc.invoices[i].status == Paid ==>
              Run(acc, steps).invoices[i].status == Paid
    ensures forall i :: 0 <= i < |acc.invoices| ==> SameTerms(acc.invoices[i], Run(acc, steps).invoices[i])
  {
    hide Next;
    Lifecycle.TerminalAbsorbs(acc, steps);
    if steps != [] {
      var n := |steps| - 1;
      PaidStaysPaid(acc, steps[..n]);
      var changed, i, inv, change := StepChange(Run(acc, steps[..n]), steps[n].step, steps[n].now);
      if changed { ChangeKeepsTerms(inv, change, steps[n].now); }
    }
  }

  lemma ChangeKeepsTerms(inv: Invoice, change: Change, now: Instant)
    ensures SameTerms(inv, Apply(inv, change, now))
  {}

  // Both periods contain some instant.
  ghost predicate Overlap(a: Invoice, b: Invoice) {
    && a.periodStart.Some? && a.periodEnd.Some? && b.periodStart.Some? && b.periodEnd.Some?
    && exists x: Instant :: InPeriod(a, x) && InPeriod(b, x)
  }

  predicate InPeriod(inv: Invoice, x: Instant) {
    inv.periodStart.Some? && inv.periodEnd.Some? && inv.periodStart.value <= x < inv.periodEnd.value
  }

  // The checkout invoice bills the interval from the creation, the first renewal the
  // interval from the activation, although the checkout has just paid for it. The two
  // invoices bill a common instant exactly when the subscription was activated before
  // the interval from its creation was over.
  lemma CheckoutOverlapsFirstRenewalIff(sub: Subscription, created: Instant, eventId: string, now: Instant,
                                        steps: seq<Timed>)
    requires sub.kind == Recurring && sub.status == Incomplete
    requires created <= now && sub.plan.intervalCount >= 1
    requires forall k :: 0 <= k < |steps| ==> RenewalStep(steps[k].step)
    ensures var start := Account(sub, Installments.ScheduledInvoices(sub.plan, created, 1));
            |start.invoices| == 1 &&
            var post := Run(Next(start, WebhookSuccessStep(0, eventId), now), steps);
            |post.invoices| >= 2 ==>
              (Overlap(post.invoices[0], post.invoices[1]) <==>
               now < AdvanceBillingPeriod(created, sub.plan.interval, sub.plan.intervalCount))
  {
    hide Next, Run, AdvanceBillingPeriod, ScheduleOffset, TotalCollected, TotalPaid, PaidPeriods, Iterate, Overlap,
      Installments.ScheduledInvoices;
    var plan := sub.plan;
    Installments.ScheduledAt(plan, created, 1);
    IntervalTablesAgree(created, plan.interval, plan.intervalCount, 0);
    var start := Account(sub, Installments.ScheduledInvoices(plan, created, 1));
    ActivatedSubscriptionTiles(start, eventId, now, steps);
    var post := Run(Next(start, WebhookSuccessStep(0, eventId), now), steps);
    if |post.invoices| >= 2 {
      FirstIterates(now, plan);
      AdvanceMakesProgress(now, plan.interval, plan.intervalCount);
      OverlapIff(post.invoices[0], post.invoices[1]);
    }
  }

  lemma FirstIterates(now: Instant, plan: Plan)
    ensures Iterate(now, plan.interval, plan.intervalCount, 0) == now
    ensures Iterate(now, plan.interval, plan.intervalCount, 1) ==
            AdvanceBillingPeriod(now, plan.interval, plan.intervalCount)
  {}

  lemma OverlapIff(a: Invoice, b: Invoice)
    requires a.periodStart.Some? && a.periodEnd.Some? && b.periodStart.Some? && b.periodEnd.Some?
    requires a.periodStart.value <= b.periodStart.value < b.periodEnd.value
    ensures Overlap(a, b) <==> b.periodStart.value < a.periodEnd.value
  {
    if b.periodStart.value < a.periodEnd.value {
      assert InPeriod(a, b.periodStart.value) && InPeriod(b, b.periodStart.value);
    }
  }

  lemma {:induction false} BoundaryIterates(now: Instant, plan: Plan, k: nat)
    ensures Boundary(now, AdvanceBillingPeriod(now, plan.interval, plan.intervalCount), plan, k) ==
            Iterate(now, plan.interval, plan.intervalCount, k)
  {
    hide AdvanceBillingPeriod;
    if k > 1 { BoundaryIterates(now, plan, k - 1); }
    else { assert Iterate(now, plan.interval, plan.intervalCount, 0) == now; }
  }

  // ------------------------------------------------- where the tiling ends

  // A renewal invoice that is recovered by webhook instead of by a retry restarts the
  // period at the time of the report: the new period continues the paid one exactly
  // when the report arrives at the very end of it.
  lemma WebhookRecoveryContinuesIff(acc: Account, i: nat, eventId: string, now: Instant)
    requires acc.sub.kind == Recurring && acc.sub.status == PastDue
    requires i < |acc.invoices| && acc.invoices[i].status == Open
    requires acc.sub.periodEnd.Some? && acc.invoices[i].periodEnd == acc.sub.periodEnd
    ensures var post := Next(acc, WebhookSuccessStep(i, eventId), now);
            && post.sub.status == Active && i < |post.invoices| && post.invoices[i].status == Paid
            && (post.sub.periodStart == post.invoices[i].periodEnd <==> now == acc.sub.periodEnd.value)
  {
    hide Next, AdvanceBillingPeriod;
    PaymentActivates(acc, i, eventId, now);
  }

  // Dunning recovery advances the period whatever it collected. The period the
  // subscription leaves is the one just paid for exactly when the invoice was for
  // the current period: RecoveryAdvances, read as a condition on the state before.
  lemma RecoveryPaysForPeriodIff(acc: Account, i: nat, charge: Charge, now: Instant)
    requires i < |acc.invoices| && RetryDue(acc.invoices[i], now)
    requires acc.sub.status == PastDue && acc.sub.hasCard && acc.sub.kind == Recurring
    requires acc.sub.periodStart.Some? && acc.sub.periodEnd.Some?
    requires charge.Returned? && charge.status == Success
    ensures var post := Retry(acc, i, charge, now).account;
            (post.invoices[i].periodStart == acc.sub.periodStart && post.invoices[i].periodEnd == post.sub.periodStart)
            <==> (acc.invoices[i].periodStart == acc.sub.periodStart && acc.invoices[i].periodEnd == acc.sub.periodEnd)
  {
    hide Retry, AdvanceBillingPeriod;
    RecoveryAdvances(acc, i, charge, now);
  }

  // A proration invoice is not: when the charge of an upgrade fails and a retry
  // recovers it, the subscription moves past the running period although no invoice
  // was ever issued for it.
  lemma RecoveredUpgradeSkipsPeriod(acc: Account, newPlan: Plan, start: Instant, end: Instant,
                                    now: Instant, later: Instant)
    requires acc.sub.kind == Recurring && acc.sub.status == Active && acc.sub.hasCard
    requires acc.sub.periodStart == Some(start) && acc.sub.periodEnd == Some(end) && start < now
    requires acc.invoices == [] && later >= now + Days(1)
    requires newPlan.id != acc.sub.plan.id && newPlan.currency == acc.sub.plan.currency
    requires ProrateChange(acc.sub, newPlan, now).netMinor > 0
    ensures var post := Run(acc, [
              Timed(ChangePlanStep(newPlan, Returned(Failed, Some(InsufficientFunds))), now),
              Timed(RetryStep(0, Returned(Success, None)), later)]);
            && post.sub.status == Active && post.sub.periodStart == Some(end)
            && |post.invoices| == 1 && post.invoices[0].status == Paid
            && post.invoices[0].periodStart == Some(now) != acc.sub.periodStart
  {
    hide ProrateChange, AdvanceBillingPeriod, Next;
    var fail := Timed(ChangePlanStep(newPlan, Returned(Failed, Some(InsufficientFunds))), now);
    var recover := Timed(RetryStep(0, Returned(Success, None)), later);
    assert [fail, recover][..1] == [fail] && [fail][..0] == [];
    var failed := Next(acc, fail.step, now);
    assert Run(acc, [fail]) == failed;
    assert Run(acc, [fail, recover]) == Next(failed, recover.step, later);
    FailedUpgrade(acc, newPlan, now);
    RecoveryAdvances(failed, 0, Returned(Success, None), later);
    assert Next(failed, recover.step, later) == Retry(failed, 0, Returned(Success, None), later).account by {
      RecoverIsRetry(failed, Returned(Success, None), later);
    }
  }

  lemma RecoverIsRetry(acc: Account, charge: Charge, now: Instant)
    requires |acc.invoices| > 0 && RetryDue(acc.invoices[0], now)
    ensures Next(acc, RetryStep(0, charge), now) == Retry(acc, 0, charge, now).account
  {}

  lemma FailedUpgrade(acc: Account, newPlan: Plan, now: Instant)
    requires acc.sub.status == Active && acc.sub.hasCard && acc.invoices == []
    requires newPlan.id != acc.sub.plan.id && newPlan.currency == acc.sub.plan.currency
    requires ProrateChange(acc.sub, newPlan, now).netMinor > 0
    ensures var post := Next(acc, ChangePlanStep(newPlan, Returned(Failed, Some(InsufficientFunds))), now);
            && post.sub.status == PastDue && post.sub.hasCard && post.sub.kind == acc.sub.kind
            && post.sub.periodStart == acc.sub.periodStart && post.sub.periodEnd == acc.sub.periodEnd
            && |post.invoices| == 1 && post.invoices[0].status == Open
            && post.invoices[0].periodStart == Some(now)
            && post.invoices[0].nextRetryAt == Some(now + Days(1))
  {
    hide ProrateChange, OpenOrAdvanceDunning, Dunned, Exhausts;
    var net := ProrateChange(acc.sub, newPlan, now);
    var inv := NewInvoice(net.netMinor, Some(now), acc.sub.periodEnd, None).(lineItems := net.lineItems);
    var charged := RecordCharge(inv, net.netMinor, Returned(Failed, Some(InsufficientFunds)), 0, false, now);
    var swapped := Account(acc.sub.(plan := newPlan, updatedAt := now), [inv]);
    FirstDecline(charged, now);
    assert acc.invoices + [inv] == [inv];
    DunningOutcome(SetInvoice(swapped, 0, charged), 0, Some(InsufficientFunds), now);
    DunningKeepsTerms(SetInvoice(swapped, 0, charged), 0, Some(InsufficientFunds), now);
  }
}
