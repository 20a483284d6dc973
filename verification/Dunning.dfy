// What dunning guarantees over whole runs: retries wait for their milestone, are
// bounded by the schedule that opened the cycle, and access is revoked only once
// they are used up.
module Dunning {
  import opened Prelude
  import opened RetryPolicy
  import opened Model
  import opened Billing
  import opened Changes

  // The milestone of the next retry of an open invoice after f hard failures.
  function Milestone(inv: Invoice, f: nat): Instant
    requires inv.dunningReason.Some? && inv.firstFailureAt.Some?
    requires f < |Schedule(inv.dunningReason.value)|
  {
    inv.firstFailureAt.value + Days(Schedule(inv.dunningReason.value)[f])
  }

  ghost predicate CycleOk(inv: Invoice, clock: Instant) {
    var f := HardFailures(inv.attempts);
    if inv.dunningReason.None? then
      CountRetries(inv.attempts) == 0 && inv.nextRetryAt.None?
    else
      var n := |Schedule(inv.dunningReason.value)|;
      && inv.firstFailureAt.Some? && inv.firstFailureAt.value <= clock
      && f <= n
      && (f > 0 ==> Milestone(inv, f - 1) <= clock)
      && (inv.nextRetryAt.Some? ==> f < n && Milestone(inv, f) <= inv.nextRetryAt.value)
  }

  ghost predicate DunningOk(inv: Invoice, clock: Instant) {
    && HardFailures(inv.attempts) <= CountRetries(inv.attempts)
    && HardFailures(inv.attempts) <= 3
    && inv.dunningReason != Some(RequiresAction)
    && (inv.nextRetryAt.Some? ==> inv.dunningReason.Some?)
    && (RequiresPaymentMethodUpdate(inv.dunningReason) ==>
          CountRetries(inv.attempts) == 0 && inv.nextRetryAt.None?)
    && (inv.status == Open ==> CycleOk(inv, clock) && NoRetrySucceeded(inv))
  }

  ghost predicate NoRetrySucceeded(inv: Invoice) {
    forall a :: a in inv.attempts && a.isRetry ==> a.status != Success
  }

  ghost predicate AllDunningOk(acc: Account, clock: Instant) {
    forall i :: 0 <= i < |acc.invoices| ==> DunningOk(acc.invoices[i], clock)
  }

  lemma UntouchedIsOk(inv: Invoice, clock: Instant)
    requires Untouched(inv)
    ensures DunningOk(inv, clock)
  {}

  lemma DunnedIsOk(inv: Invoice, reason: Option<FailureReason>, now: Instant)
    requires DunningOk(inv.(nextRetryAt := None), now)
    requires reason != Some(RequiresAction)
    requires inv.status == Open || !RequiresPaymentMethodUpdate(reason)
    ensures DunningOk(Dunned(inv, reason, now), now)
  {
    var post := Dunned(inv, reason, now);
    var k, f := CountRetries(inv.attempts), HardFailures(inv.attempts);
    assert post.attempts == inv.attempts;
    ScheduleShape(post.dunningReason);
    if inv.status == Open && post.nextRetryAt.Some? {
      GapsNeverShrink(post.dunningReason, f, k);
    }
  }

  lemma ChargedIsOk(inv: Invoice, amount: int, charge: Charge, number: nat, isRetry: bool, clock: Instant, now: Instant)
    requires DunningOk(inv, clock) && clock <= now
    requires inv.status == Open && (isRetry ==> RetryDue(inv, now))
    requires charge.Returned? ==> charge.status != Success
    ensures var post := RecordCharge(inv, amount, charge, number, isRetry, now);
            && DunningOk(post.(nextRetryAt := None), now)
            && (charge.Raised? || !isRetry || charge.reason == Some(RequiresAction) ==> DunningOk(post, now))
  {
    if charge.Returned? {
      var a := PaymentAttempt(charge.status, charge.reason, ChargeKey(inv.attemptCount), number, isRetry);
      CountingAppends(inv.attempts, a);
      ScheduleShape(inv.dunningReason);
    }
  }

  lemma PaidIsOk(inv: Invoice, amount: int, reason: Option<FailureReason>, number: nat, isRetry: bool,
                 clock: Instant, now: Instant)
    requires DunningOk(inv, clock)
    requires inv.status == Open && (isRetry ==> RetryDue(inv, now))
    ensures var paid := Settled(RecordCharge(inv, amount, Returned(Success, reason), number, isRetry, now), now);
            DunningOk(paid, now) && DunningOk(ClearDunning(paid), now)
  {
    CountingAppends(inv.attempts,
      PaymentAttempt(Success, reason, ChargeKey(inv.attemptCount), number, isRetry));
  }

  lemma NotedIsOk(inv: Invoice, status: PaymentStatus, reason: Option<FailureReason>, eventId: string,
                  clock: Instant, now: Instant)
    requires DunningOk(inv, clock) && clock <= now
    ensures DunningOk(NotePayment(inv, status, reason, eventId), now)
    ensures DunningOk(NotePayment(inv, status, reason, eventId).(nextRetryAt := None), now)
  {
    hide CountRetries, HardFailures, ChargeKeys, Schedule;
    CountingAppends(inv.attempts, PaymentAttempt(status, reason, Event(eventId), 0, false));
  }

  lemma SettledIsOk(inv: Invoice, now: Instant)
    requires DunningOk(inv, now)
    ensures DunningOk(Settled(inv, now), now)
    ensures inv.status == Open || inv.status == Paid ==> DunningOk(ClearDunning(Settled(inv, now)), now)
  {}

  lemma ChangeKeepsDunning(inv: Invoice, change: Change, live: bool, clock: Instant, now: Instant)
    requires DunningOk(inv, clock) && clock <= now
    requires Allowed(inv, change, live, now)
    ensures DunningOk(Apply(inv, change, now), now)
  {
    hide RecordCharge, Dunned, Settled, NotePayment, DunningOk;
    match change
    case StopRetrying => StoppedIsOk(inv, clock, now);
    case Dun(reason) =>
      StoppedIsOk(inv, clock, now);
      DunnedIsOk(inv, reason, now);
    case ChargeRaised(amount, number, isRetry) =>
      ChargedIsOk(inv, amount, Raised, number, isRetry, clock, now);
    case ChargePaid(amount, number, isRetry, reason, cleared) =>
      PaidIsOk(inv, amount, reason, number, isRetry, clock, now);
    case ChargeFailed(amount, number, isRetry, status, reason, dunned) =>
      var charged := RecordCharge(inv, amount, Returned(status, reason), number, isRetry, now);
      ChargedIsOk(inv, amount, Returned(status, reason), number, isRetry, clock, now);
      RecordKeepsStatus(inv, amount, Returned(status, reason), number, isRetry, now);
      if dunned { DunnedIsOk(charged, reason, now); }
    case SettleForFree =>
      LaterIsOk(inv, clock, now);
      SettledIsOk(inv, now);
    case WebhookPaid(eventId, cleared) =>
      NotedIsOk(inv, Success, None, eventId, clock, now);
      var noted := NotePayment(inv, Success, None, eventId);
      NotingKeepsStatus(inv, eventId);
      SettledIsOk(noted, now);
    case WebhookDeclined(eventId, dunned) =>
      NotedIsOk(inv, Failed, Some(CardDeclined), eventId, clock, now);
      if dunned { DunnedIsOk(NotePayment(inv, Failed, Some(CardDeclined), eventId), Some(CardDeclined), now); }
  }

  lemma StoppedIsOk(inv: Invoice, clock: Instant, now: Instant)
    requires DunningOk(inv, clock) && clock <= now
    ensures DunningOk(inv.(nextRetryAt := None), now)
  {}

  lemma NotingKeepsStatus(inv: Invoice, eventId: string)
    ensures NotePayment(inv, Success, None, eventId).status == inv.status
  {}

  lemma StepKeepsDunning(acc: Account, step: Step, clock: Instant, now: Instant)
    requires AllDunningOk(acc, clock) && clock <= now
    ensures AllDunningOk(Next(acc, step, now), now)
  {
    hide Next, DunningOk, Apply;
    var changed, i, inv, change := StepChange(acc, step, now);
    var post := Next(acc, step, now);
    if changed {
      if i == |acc.invoices| { UntouchedIsOk(inv, clock); }
      ChangeKeepsDunning(inv, change, Live(acc.sub), clock, now);
    }
    forall j | 0 <= j < |post.invoices| ensures DunningOk(post.invoices[j], now) {
      if j < |acc.invoices| && !(changed && j == i) { LaterIsOk(acc.invoices[j], clock, now); }
    }
  }

  lemma LaterIsOk(inv: Invoice, clock: Instant, now: Instant)
    requires DunningOk(inv, clock) && clock <= now
    ensures DunningOk(inv, now)
  {}

  ghost predicate Fresh(acc: Account) {
    forall i :: 0 <= i < |acc.invoices| ==> Untouched(acc.invoices[i])
  }

  lemma {:induction false} RunKeepsDunning(acc: Account, start: Instant, steps: seq<Timed>)
    requires AllDunningOk(acc, start) && Monotone(start, steps)
    ensures AllDunningOk(Run(acc, steps), LastInstant(start, steps))
  {
    if steps != [] {
      var n := |steps| - 1;
      RunKeepsDunning(acc, start, steps[..n]);
      StepKeepsDunning(Run(acc, steps[..n]), steps[n].step, LastInstant(start, steps[..n]), steps[n].now);
    }
  }

  lemma ReachableDunning(acc: Account, start: Instant, steps: seq<Timed>)
    requires Fresh(acc) && Monotone(start, steps)
    ensures AllDunningOk(Run(acc, steps), LastInstant(start, steps))
  {
    hide DunningOk;
    forall i | 0 <= i < |acc.invoices| ensures DunningOk(acc.invoices[i], start) {
      UntouchedIsOk(acc.invoices[i], start);
    }
    RunKeepsDunning(acc, start, steps);
  }

  // ------------------------------------------------------------- timed schedule

  // In every run, the retry that follows f hard failures happens no earlier than
  // the f-th milestone of the reason that opened the cycle, counted from its first
  // failure. f never exceeds the number of retries done, and equals it as long as
  // no retry of the invoice was answered by a step-up request.
  lemma RetriesAreTimed(acc: Account, start: Instant, steps: seq<Timed>, i: nat, now: Instant)
    requires Fresh(acc) && Monotone(start, steps) && LastInstant(start, steps) <= now
    requires i < |Run(acc, steps).invoices| && RetryDue(Run(acc, steps).invoices[i], now)
    ensures var inv := Run(acc, steps).invoices[i];
            var f := HardFailures(inv.attempts);
            && inv.dunningReason.Some? && inv.firstFailureAt.Some?
            && f < |Schedule(inv.dunningReason.value)|
            && now >= inv.firstFailureAt.value + Days(Schedule(inv.dunningReason.value)[f])
            && f <= CountRetries(inv.attempts)
            && ((forall a :: a in inv.attempts && a.isRetry ==> a.reason != Some(RequiresAction)) ==>
                  f == CountRetries(inv.attempts))
  {
    ReachableDunning(acc, start, steps);
    var inv := Run(acc, steps).invoices[i];
    assert DunningOk(inv, LastInstant(start, steps));
    if forall a :: a in inv.attempts && a.isRetry ==> a.reason != Some(RequiresAction) {
      AllRetriesHard(inv.attempts);
    }
  }

  lemma {:induction false} AllRetriesHard(attempts: seq<PaymentAttempt>)
    requires forall a :: a in attempts && a.isRetry ==> HardFailure(a)
    ensures HardFailures(attempts) == CountRetries(attempts)
  {
    if attempts != [] {
      AllRetriesHard(attempts[..|attempts| - 1]);
    }
  }

  // A declined retry is rescheduled strictly into the future, or not at all, except
  // when the customer is asked to authenticate: exactly then the invoice is due
  // again at once.
  lemma DeclinedRetryDueAgainIff(acc: Account, i: nat, status: PaymentStatus, reason: Option<FailureReason>,
                                 clock: Instant, now: Instant)
    requires AllDunningOk(acc, clock) && clock <= now
    requires i < |acc.invoices| && RetryDue(acc.invoices[i], now)
    requires acc.sub.status == PastDue && acc.sub.hasCard && status != Success
    ensures RetryDue(Retry(acc, i, Returned(status, reason), now).account.invoices[i], now) <==>
            reason == Some(RequiresAction)
  {
    var inv := acc.invoices[i];
    var charged := RecordCharge(inv, inv.amountDue, Returned(status, reason), inv.attemptCount, true, now);
    ChargedAndDunned(acc, i, SetInvoice(acc, i, charged), charged, reason, now);
    var post := Dunned(charged, reason, now);
    var k := CountRetries(post.attempts);
    if NextRetryGapDays(post.dunningReason, k).Some? {
      GapsNeverShrink(post.dunningReason, k, k);
    }
  }

  // So the documented spacing of retries fails for them: two retries of one
  // invoice can be charged at the same instant.
  lemma StepUpRepeatsAtOnce(acc: Account, i: nat, clock: Instant, now: Instant, charge: Charge)
    requires AllDunningOk(acc, clock) && clock <= now
    requires i < |acc.invoices| && RetryDue(acc.invoices[i], now)
    requires acc.sub.status == PastDue && acc.sub.hasCard && charge.Returned?
    ensures var once := Retry(acc, i, Returned(NeedsAction, Some(RequiresAction)), now).account;
            var twice := Retry(once, i, charge, now).account;
            && RetryDue(once.invoices[i], now)
            && CountRetries(twice.invoices[i].attempts) == CountRetries(acc.invoices[i].attempts) + 2
  {
    DeclinedRetryDueAgainIff(acc, i, NeedsAction, Some(RequiresAction), clock, now);
    RetryCounts(acc, i, Returned(NeedsAction, Some(RequiresAction)), now);
    var once := Retry(acc, i, Returned(NeedsAction, Some(RequiresAction)), now).account;
    RetryCounts(once, i, charge, now);
  }

  lemma RetryCounts(acc: Account, i: nat, charge: Charge, now: Instant)
    requires i < |acc.invoices| && RetryDue(acc.invoices[i], now)
    requires acc.sub.status == PastDue && acc.sub.hasCard && charge.Returned?
    ensures var post := Retry(acc, i, charge, now).account;
            && |post.invoices| == |acc.invoices|
            && CountRetries(post.invoices[i].attempts) == CountRetries(acc.invoices[i].attempts) + 1
            && HardFailures(post.invoices[i].attempts) == HardFailures(acc.invoices[i].attempts) +
                 (if charge.status != Success && charge.reason != Some(RequiresAction) then 1 else 0)
  {
    hide CountRetries, HardFailures, HardFailure;
    var inv := acc.invoices[i];
    CountingAppends(inv.attempts,
      PaymentAttempt(charge.status, charge.reason, ChargeKey(inv.attemptCount), inv.attemptCount, true));
    RetryRecordsAttempt(acc, i, charge, now);
    assert HardFailure(PaymentAttempt(charge.status, charge.reason, ChargeKey(inv.attemptCount), inv.attemptCount, true))
      <==> charge.status != Success && charge.reason != Some(RequiresAction) by {
      HardFailureIff(charge.status, charge.reason, ChargeKey(inv.attemptCount), inv.attemptCount);
    }
  }

  lemma HardFailureIff(status: PaymentStatus, reason: Option<FailureReason>, reference: Reference, number: nat)
    ensures HardFailure(PaymentAttempt(status, reason, reference, number, true)) <==>
            status != Success && reason != Some(RequiresAction)
  {}

  lemma RetryRecordsAttempt(acc: Account, i: nat, charge: Charge, now: Instant)
    requires i < |acc.invoices| && RetryDue(acc.invoices[i], now)
    requires acc.sub.status == PastDue && acc.sub.hasCard && charge.Returned?
    ensures var post := Retry(acc, i, charge, now).account;
            var inv := acc.invoices[i];
            && |post.invoices| == |acc.invoices|
            && post.invoices[i].attempts == inv.attempts +
                 [PaymentAttempt(charge.status, charge.reason, ChargeKey(inv.attemptCount), inv.attemptCount, true)]
  {
    hide OpenOrAdvanceDunning, TransitionInvoice, RecordCharge, Dunned, Settled;
    var inv := acc.invoices[i];
    var charged := RecordCharge(inv, inv.amountDue, charge, inv.attemptCount, true, now);
    RecordedAttempt(inv, charge, now);
    EditsKeepAttempts(charged, charge.reason, now);
    if charge.status == Success {
      PayingKeepsOthers(SetInvoice(acc, i, charged), i, now);
    } else {
      ChargedAndDunned(acc, i, SetInvoice(acc, i, charged), charged, charge.reason, now);
    }
  }

  lemma RecordedAttempt(inv: Invoice, charge: Charge, now: Instant)
    requires charge.Returned?
    ensures var post := RecordCharge(inv, inv.amountDue, charge, inv.attemptCount, true, now);
            && post.status == inv.status
            && post.attempts == inv.attempts +
                 [PaymentAttempt(charge.status, charge.reason, ChargeKey(inv.attemptCount), inv.attemptCount, true)]
  {}

  lemma EditsKeepAttempts(inv: Invoice, reason: Option<FailureReason>, now: Instant)
    ensures Dunned(inv, reason, now).attempts == inv.attempts
    ensures Settled(inv, now).attempts == inv.attempts
  {}

  // ------------------------------------------------------------ bounded retries

  // In every run: an open invoice has no more hard-failed retries than the schedule
  // of its anchor has offsets, no invoice ever has more than three, and a reason
  // that needs a new payment method is never retried nor scheduled.
  lemma RetriesAreBounded(acc: Account, start: Instant, steps: seq<Timed>, i: nat)
    requires Fresh(acc) && Monotone(start, steps) && i < |Run(acc, steps).invoices|
    ensures var inv := Run(acc, steps).invoices[i];
            && HardFailures(inv.attempts) <= 3
            && (inv.status == Open && inv.dunningReason.Some? ==>
                  HardFailures(inv.attempts) <= |Schedule(inv.dunningReason.value)|)
            && (inv.status == Open && inv.dunningReason.None? ==> CountRetries(inv.attempts) == 0)
            && inv.dunningReason != Some(RequiresAction)
            && (RequiresPaymentMethodUpdate(inv.dunningReason) ==>
                  CountRetries(inv.attempts) == 0 && inv.nextRetryAt.None?)
  {
    ReachableDunning(acc, start, steps);
    assert DunningOk(Run(acc, steps).invoices[i], LastInstant(start, steps));
  }

  // The reason that opened a cycle anchors it for as long as the invoice stays
  // open, whatever happens to the account.
  lemma {:induction false} AnchorNeverChanges(acc: Account, steps: seq<Timed>, i: nat)
    requires i < |acc.invoices| && acc.invoices[i].dunningReason.Some?
    ensures i < |Run(acc, steps).invoices|
    ensures var inv := Run(acc, steps).invoices[i];
            inv.status == Open ==>
              acc.invoices[i].status == Open &&
              inv.dunningReason == acc.invoices[i].dunningReason &&
              inv.firstFailureAt == acc.invoices[i].firstFailureAt
  {
    if steps != [] {
      var n := |steps| - 1;
      AnchorNeverChanges(acc, steps[..n], i);
      AnchorSurvivesStep(Run(acc, steps[..n]), steps[n].step, steps[n].now, i);
    }
  }

  lemma AnchorSurvivesStep(acc: Account, step: Step, now: Instant, i: nat)
    requires i < |acc.invoices|
    ensures i < |Next(acc, step, now).invoices|
    ensures var inv := Next(acc, step, now).invoices[i];
            inv.status == Open ==>
              acc.invoices[i].status == Open &&
              (acc.invoices[i].dunningReason.Some? ==>
                inv.dunningReason == acc.invoices[i].dunningReason &&
                inv.firstFailureAt == acc.invoices[i].firstFailureAt)
  {
    hide Next;
    var changed, k, inv, change := StepChange(acc, step, now);
  }

  // A retry that is charged and answered either collects the invoice, or uses up
  // one hard failure: then the next retry lies in the future, or the schedule is
  // exhausted and access is revoked.
  lemma RetryMakesProgress(acc: Account, i: nat, charge: Charge, clock: Instant, now: Instant)
    requires AllDunningOk(acc, clock) && clock <= now
    requires i < |acc.invoices| && RetryDue(acc.invoices[i], now)
    requires acc.sub.status == PastDue && acc.sub.hasCard
    requires charge.Returned? && charge.reason != Some(RequiresAction)
    ensures var post := Retry(acc, i, charge, now).account;
            var before, after := acc.invoices[i], post.invoices[i];
            && |post.invoices| == |acc.invoices| && post.sub.hasCard
            && if charge.status == Success then
                 after.status == Paid && (acc.sub.kind == Recurring ==> post.sub.status == Active)
               else
                 && after.status == Open && after.dunningReason == before.dunningReason
                 && HardFailures(after.attempts) == HardFailures(before.attempts) + 1
                 && HardFailures(after.attempts) <= |Schedule(before.dunningReason.value)|
                 && if after.nextRetryAt.Some? then
                      post.sub.status == PastDue && after.nextRetryAt.value > now &&
                      HardFailures(after.attempts) < |Schedule(before.dunningReason.value)|
                    else post.sub.status == Unpaid
  {
    hide Retry, DunningOk, Schedule;
    if charge.status == Success { RetryCollects(acc, i, charge, now); }
    else { RetryDeclines(acc, i, charge, clock, now); }
  }

  lemma RetryCollects(acc: Account, i: nat, charge: Charge, now: Instant)
    requires i < |acc.invoices| && RetryDue(acc.invoices[i], now)
    requires acc.sub.status == PastDue && acc.sub.hasCard
    requires charge.Returned? && charge.status == Success
    ensures var post := Retry(acc, i, charge, now).account;
            && |post.invoices| == |acc.invoices| && post.sub.hasCard
            && post.invoices[i].status == Paid && (acc.sub.kind == Recurring ==> post.sub.status == Active)
  {}

  lemma RetryDeclines(acc: Account, i: nat, charge: Charge, clock: Instant, now: Instant)
    requires AllDunningOk(acc, clock) && clock <= now
    requires i < |acc.invoices| && RetryDue(acc.invoices[i], now)
    requires acc.sub.status == PastDue && acc.sub.hasCard
    requires charge.Returned? && charge.status != Success && charge.reason != Some(RequiresAction)
    ensures var post := Retry(acc, i, charge, now).account;
            var before, after := acc.invoices[i], post.invoices[i];
            && |post.invoices| == |acc.invoices| && post.sub.hasCard
            && before.dunningReason.Some?
            && after.status == Open && after.dunningReason == before.dunningReason
            && HardFailures(after.attempts) == HardFailures(before.attempts) + 1
            && HardFailures(after.attempts) <= |Schedule(before.dunningReason.value)|
            && if after.nextRetryAt.Some? then
                 post.sub.status == PastDue && after.nextRetryAt.value > now &&
                 HardFailures(after.attempts) < |Schedule(before.dunningReason.value)|
               else post.sub.status == Unpaid
  {
    hide OpenOrAdvanceDunning, Take, Apply;
    var inv := acc.invoices[i];
    var charged := RecordCharge(inv, inv.amountDue, charge, inv.attemptCount, true, now);
    var post := Retry(acc, i, charge, now).account;
    RetryCounts(acc, i, charge, now);
    assert DunningOk(inv, clock);
    assert DunningOk(post.invoices[i], now) by {
      StepKeepsDunning(acc, RetryStep(i, charge), clock, now);
      assert post == Next(acc, RetryStep(i, charge), now) by { RetryIsStep(acc, i, charge, now); }
    }
    DunningOutcome(SetInvoice(acc, i, charged), i, charge.reason, now);
    DunningKeepsTerms(SetInvoice(acc, i, charged), i, charge.reason, now);
    NextRetryInFuture(charged, charge.reason, now);
  }

  lemma RetryIsStep(acc: Account, i: nat, charge: Charge, now: Instant)
    requires i < |acc.invoices| && RetryDue(acc.invoices[i], now)
    ensures Take(acc, RetryStep(i, charge), now) == Retry(acc, i, charge, now)
  {}

  lemma NextRetryInFuture(inv: Invoice, reason: Option<FailureReason>, now: Instant)
    ensures var next := Dunned(inv, reason, now).nextRetryAt;
            next.Some? ==> next.value > now
  {
    var post := Dunned(inv, reason, now);
    var k := CountRetries(post.attempts);
    if post.nextRetryAt.Some? { GapsNeverShrink(post.dunningReason, k, k); }
  }

  function Later(a: Instant, b: Instant): Instant {
    if a < b then b else a
  }

  // The retries of one invoice, each at its due time or at the clock when that is
  // already past, for as long as it stays open and scheduled.
  function RetryOnSchedule(acc: Account, i: nat, answers: seq<Charge>, clock: Instant): Account
    requires i < |acc.invoices|
    decreases |answers|
  {
    var inv := acc.invoices[i];
    if answers == [] || inv.status != Open || inv.nextRetryAt.None? then acc
    else
      var now := Later(clock, inv.nextRetryAt.value);
      var post := Retry(acc, i, answers[0], now).account;
      if i < |post.invoices| then RetryOnSchedule(post, i, answers[1..], now) else post
  }

  // The schedule ends: whatever the answers, as long as none asks for a step-up or
  // is lost, at most schedule length minus hard failures retries collect the
  // invoice or revoke access.
  lemma {:induction false} RetriesTerminate(acc: Account, i: nat, answers: seq<Charge>, clock: Instant)
    requires AllDunningOk(acc, clock)
    requires i < |acc.invoices| && acc.sub.status == PastDue && acc.sub.hasCard
    requires var inv := acc.invoices[i];
             && inv.status == Open && inv.nextRetryAt.Some? && inv.dunningReason.Some?
             && |answers| >= |Schedule(inv.dunningReason.value)| - HardFailures(inv.attempts)
    requires forall a :: a in answers ==> a.Returned? && a.reason != Some(RequiresAction)
    ensures var post := RetryOnSchedule(acc, i, answers, clock);
            && i < |post.invoices|
            && (post.invoices[i].status == Paid || post.sub.status == Unpaid)
    decreases |answers|
  {
    hide Retry, Schedule;
    var inv := acc.invoices[i];
    var now := Later(clock, inv.nextRetryAt.value);
    assert DunningOk(inv, clock);
    assert answers[0] in answers;
    RetryMakesProgress(acc, i, answers[0], clock, now);
    var post := Retry(acc, i, answers[0], now).account;
    RetryIsStep(acc, i, answers[0], now);
    StepKeepsDunning(acc, RetryStep(i, answers[0]), clock, now);
    if post.invoices[i].status == Open && post.invoices[i].nextRetryAt.Some? {
      RetriesTerminate(post, i, answers[1..], now);
    } else {
      assert RetryOnSchedule(post, i, answers[1..], now) == post;
    }
  }

  // ------------------------------------------------------------------ revocation

  // In every run, a step that takes a subscription to unpaid does so by dunning one
  // invoice, whose schedule has been used up by at least one retry.
  lemma RevocationOnlyAfterExhaustion(acc: Account, start: Instant, steps: seq<Timed>, step: Step, now: Instant)
    returns (i: nat, inv: Invoice, change: Change)
    requires Fresh(acc) && Monotone(start, steps) && LastInstant(start, steps) <= now
    requires Run(acc, steps).sub.status != Unpaid
    requires Next(Run(acc, steps), step, now).sub.status == Unpaid
    ensures var before, post := Run(acc, steps), Next(Run(acc, steps), step, now);
            && ChangedAt(before.invoices, post.invoices, i, inv, change, Live(before.sub), now)
            && IsDunning(change)
            && i < |post.invoices| && UsedUp(post.invoices[i])
  {
    hide Next, Run, DunningOk, Exhausts, UsedUp, Apply, Allowed;
    var before := Run(acc, steps);
    ReachableDunning(acc, start, steps);
    StepKeepsDunning(before, step, LastInstant(start, steps), now);
    var changed;
    changed, i, inv, change := StepChange(before, step, now);
    ExhaustedIsUsedUp(Next(before, step, now).invoices[i], now);
  }

  lemma ExhaustedIsUsedUp(inv: Invoice, now: Instant)
    requires DunningOk(inv, now) && Exhausts(inv)
    ensures UsedUp(inv)
  {
    hide CountRetries, HardFailures, CycleOk, NoRetrySucceeded;
  }

  ghost predicate UsedUp(inv: Invoice) {
    && inv.dunningReason.Some? && inv.nextRetryAt.None?
    && !RequiresPaymentMethodUpdate(inv.dunningReason)
    && CountRetries(inv.attempts) >= 1
    && CountRetries(inv.attempts) >= |Schedule(inv.dunningReason.value)|
  }

  // A decline reported late by webhook is not checked against the payment of the
  // invoice: what it does depends on the subscription alone, on the retries recorded
  // for the invoice and on the reason that anchors it. It is harmless to the
  // subscription exactly when that is not active, and not past due with the schedule
  // used up; it revokes access exactly when dunning applies and the schedule is used
  // up.
  lemma LateDeclineHitsPaidInvoices(acc: Account, i: nat, eventId: string, clock: Instant, now: Instant)
    requires AllDunningOk(acc, clock) && clock <= now
    requires i < |acc.invoices|
    ensures var post := WebhookFailed(acc, i, eventId, now).account;
            var spent := ScheduleSpent(acc.invoices[i]);
            && (post.sub.status == acc.sub.status <==>
                  acc.sub.status != Active && !(acc.sub.status == PastDue && spent))
            && (post.sub.status == Unpaid <==>
                  acc.sub.status == Unpaid || (acc.sub.status in {Active, PastDue} && spent))
            && (acc.sub.status == Active && !spent ==> post.sub.status == PastDue)
  {
    hide OpenOrAdvanceDunning;
    var inv := acc.invoices[i];
    assert DunningOk(inv, clock);
    var noted := NotePayment(inv, Failed, Some(CardDeclined), eventId);
    CountingAppends(inv.attempts, PaymentAttempt(Failed, Some(CardDeclined), Event(eventId), 0, false));
    DunningOutcome(SetInvoice(acc, i, noted), i, Some(CardDeclined), now);
    NotRetryableIffHard(inv.dunningReason.GetOr(CardDeclined));
  }

  // The retries recorded for an invoice cover the schedule that a decline reported by
  // webhook would continue, and there was something to cover.
  predicate ScheduleSpent(inv: Invoice) {
    var anchor := inv.dunningReason.GetOr(CardDeclined);
    CountRetries(inv.attempts) >= |Schedule(anchor)| > 0
  }
}
