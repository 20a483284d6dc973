// The scheduled workers and the webhook endpoint, as loops over the records of a
// database.
module Workers {
  import opened Prelude
  import opened RetryPolicy
  import opened Model
  import opened Billing
  import opened Changes
  import opened Outcomes
  import opened Engine
  import Webhooks

  // The rows below n that a worker's query selects.
  function Select(n: nat, wanted: nat -> bool): seq<nat> {
    if n == 0 then []
    else if wanted(n - 1) then Select(n - 1, wanted) + [n - 1]
    else Select(n - 1, wanted)
  }

  ghost predicate Ascending(rows: seq<nat>, n: nat, wanted: nat -> bool) {
    && (forall j :: 0 <= j < |rows| ==> rows[j] < n && wanted(rows[j]))
    && (forall j, k :: 0 <= j < k < |rows| ==> rows[j] < rows[k])
  }

  lemma {:induction false} SelectInOrder(n: nat, wanted: nat -> bool)
    ensures Ascending(Select(n, wanted), n, wanted)
  {
    if n > 0 {
      SelectInOrder(n - 1, wanted);
    }
  }

  // A worker passes over no row its query selects, and takes none twice: the
  // rows come in order and are exactly the wanted ones.
  lemma {:induction false} SelectsExactly(n: nat, wanted: nat -> bool)
    ensures Ascending(Select(n, wanted), n, wanted)
    ensures forall i: nat :: i in Select(n, wanted) <==> i < n && wanted(i)
  {
    SelectInOrder(n, wanted);
    if n > 0 {
      SelectsExactly(n - 1, wanted);
    }
  }

  function DueRetries(acc: Account, now: Instant): seq<nat> {
    Select(|acc.invoices|, (i: nat) => i < |acc.invoices| && RetryDue(acc.invoices[i], now))
  }

  function DueInstallments(acc: Account, now: Instant): seq<nat> {
    if acc.sub.kind != Installment || acc.sub.status != Active then []
    else Select(|acc.invoices|, (i: nat) => i < |acc.invoices| && InstallmentDue(acc.invoices[i], now))
  }

  // The retries of the selected rows, as steps of the account.
  function RetrySteps(rows: seq<nat>, charge: nat -> Charge, now: Instant): seq<Timed> {
    if rows == [] then []
    else
      var n := |rows| - 1;
      RetrySteps(rows[..n], charge, now) + [Timed(RetryStep(rows[n], charge(rows[n])), now)]
  }

  // The selected rows charged one after the other, up to the first exception.
  function ChargeRows(acc: Account, rows: seq<nat>, charge: nat -> Charge, now: Instant): Outcome {
    if rows == [] then Outcome(acc, false)
    else
      var n := |rows| - 1;
      var before := ChargeRows(acc, rows[..n], charge, now);
      if before.raised || rows[n] >= |before.account.invoices| then before
      else ChargeInstallment(before.account, rows[n], charge(rows[n]), now)
  }

  function InstallmentRun(acc: Account, charge: nat -> Charge, now: Instant): Outcome {
    ChargeRows(acc, DueInstallments(acc, now), charge, now)
  }

  lemma RetryTouchesOneInvoice(acc: Account, i: nat, charge: Charge, now: Instant)
    requires i < |acc.invoices| && RetryDue(acc.invoices[i], now)
    ensures var post := Retry(acc, i, charge, now).account;
            && |post.invoices| == |acc.invoices|
            && (forall k :: 0 <= k < |acc.invoices| && k != i ==> post.invoices[k] == acc.invoices[k])
            && Next(acc, RetryStep(i, charge), now) == post
  {
    hide Retry;
    var change := RetryChange(acc, i, charge, now);
  }

  // The invoices a retry run has not reached yet are as they were selected, so the
  // rows are still due when their turn comes.
  lemma {:induction false} RetryRunSoFar(acc: Account, rows: seq<nat>, charge: nat -> Charge, now: Instant)
    requires forall j :: 0 <= j < |rows| ==> rows[j] < |acc.invoices| && RetryDue(acc.invoices[rows[j]], now)
    requires forall j, k :: 0 <= j < k < |rows| ==> rows[j] < rows[k]
    ensures var mid := Run(acc, RetrySteps(rows, charge, now));
            && |mid.invoices| == |acc.invoices|
            && (forall k :: 0 <= k < |acc.invoices| && k !in rows ==> mid.invoices[k] == acc.invoices[k])
  {
    hide Next, RetryDue, Run;
    if rows == [] {
      RunNothing(acc);
    } else {
      var n := |rows| - 1;
      var prior, last := rows[..n], Timed(RetryStep(rows[n], charge(rows[n])), now);
      RetryRunSoFar(acc, prior, charge, now);
      RunOneMore(acc, RetrySteps(prior, charge, now), last);
      var before := Run(acc, RetrySteps(prior, charge, now));
      assert rows[n] !in prior;
      RetryTouchesOneInvoice(before, rows[n], charge(rows[n]), now);
    }
  }

  lemma RunNothing(acc: Account)
    ensures Run(acc, []) == acc
  {}

  lemma RunOneMore(acc: Account, steps: seq<Timed>, last: Timed)
    ensures Run(acc, steps + [last]) == Next(Run(acc, steps), last.step, last.now)
  {
    assert (steps + [last])[..|steps|] == steps;
  }

  // A due row is taken at its turn: it is charged, or, when the subscription is by then
  // no longer past due or has no card, taken off the schedule.
  predicate Taken(before: Invoice, after: Invoice, charge: Charge, now: Instant) {
    || after.calls == before.calls + [ProviderCall(before.attemptCount, before.amountDue, charge, true, now)]
    || after == before.(nextRetryAt := None)
  }

  lemma RetryTakes(acc: Account, i: nat, charge: Charge, now: Instant)
    requires i < |acc.invoices| && RetryDue(acc.invoices[i], now)
    ensures var post := Retry(acc, i, charge, now).account;
            && i < |post.invoices| && Taken(acc.invoices[i], post.invoices[i], charge, now)
            && (acc.sub.status == PastDue && acc.sub.hasCard ==>
                  |post.invoices[i].calls| == |acc.invoices[i].calls| + 1)
  {
    hide Retry, DunnedBy;
    RetryOutcome(acc, i, charge, now);
  }

  lemma {:induction false} RowsAreTaken(acc: Account, rows: seq<nat>, charge: nat -> Charge, now: Instant, i: nat)
    requires forall j :: 0 <= j < |rows| ==> rows[j] < |acc.invoices| && RetryDue(acc.invoices[rows[j]], now)
    requires forall j, k :: 0 <= j < k < |rows| ==> rows[j] < rows[k]
    requires i in rows
    ensures var post := Run(acc, RetrySteps(rows, charge, now));
            && i < |post.invoices| && Taken(acc.invoices[i], post.invoices[i], charge(i), now)
            && (rows[0] == i && acc.sub.status == PastDue && acc.sub.hasCard ==>
                  |post.invoices[i].calls| == |acc.invoices[i].calls| + 1)
  {
    hide Next, RetryDue, Run, Retry, Taken;
    var n := |rows| - 1;
    var prior, last := rows[..n], Timed(RetryStep(rows[n], charge(rows[n])), now);
    RetryRunSoFar(acc, prior, charge, now);
    RunOneMore(acc, RetrySteps(prior, charge, now), last);
    var before := Run(acc, RetrySteps(prior, charge, now));
    RetryTouchesOneInvoice(before, rows[n], charge(rows[n]), now);
    if i in prior {
      RowsAreTaken(acc, prior, charge, now, i);
    } else {
      assert i == rows[n];
      RetryTakes(before, i, charge(i), now);
      if n == 0 { RunNothing(acc); }
    }
  }

  // What the retry worker does with every invoice: it takes exactly those that are due
  // when it starts, and charges the first of them if the subscription is past due with a
  // card.
  lemma DueRetriesAreTaken(acc: Account, charge: nat -> Charge, now: Instant, i: nat)
    requires i < |acc.invoices|
    ensures var post := Run(acc, RetrySteps(DueRetries(acc, now), charge, now));
            var before := acc.invoices[i];
            && |post.invoices| == |acc.invoices|
            && (if before.status == Open && (exists due :: before.nextRetryAt == Some(due) && due <= now)
                then Taken(before, post.invoices[i], charge(i), now)
                else post.invoices[i] == before)
            && (RetryDue(before, now) && (forall j :: 0 <= j < i ==> !RetryDue(acc.invoices[j], now)) &&
                acc.sub.status == PastDue && acc.sub.hasCard ==>
                  |post.invoices[i].calls| == |before.calls| + 1)
  {
    hide Run, RetrySteps, Select, Taken;
    var wanted := (k: nat) => k < |acc.invoices| && RetryDue(acc.invoices[k], now);
    SelectsExactly(|acc.invoices|, wanted);
    var rows := DueRetries(acc, now);
    assert rows == Select(|acc.invoices|, wanted);
    RetryRunSoFar(acc, rows, charge, now);
    if RetryDue(acc.invoices[i], now) {
      assert acc.invoices[i].nextRetryAt == Some(acc.invoices[i].nextRetryAt.value);
      RowsAreTaken(acc, rows, charge, now, i);
      if forall j :: 0 <= j < i ==> !RetryDue(acc.invoices[j], now) {
        assert RetryDue(acc.invoices[rows[0]], now);
      }
    }
  }

  lemma InstallmentKeepsCard(acc: Account, i: nat, charge: Charge, now: Instant)
    requires i < |acc.invoices|
    ensures ChargeInstallment(acc, i, charge, now).account.sub.hasCard == acc.sub.hasCard
  {
    hide OpenOrAdvanceDunning, TransitionInvoice, RecordCharge;
    var inv := acc.invoices[i];
    var charged := SetInvoice(acc, i, RecordCharge(inv, inv.amountDue, charge, inv.attemptCount, false, now));
    PaymentKeepsTerms(charged, i, now);
    DunningKeepsTerms(acc, i, Some(InvalidPaymentMethod), now);
    if charge.Returned? { DunningKeepsTerms(charged, i, charge.reason, now); }
  }

  lemma {:induction false} RowsAreCharged(acc: Account, rows: seq<nat>, charge: nat -> Charge, now: Instant, i: nat)
    requires acc.sub.kind == Installment && acc.sub.hasCard
    requires forall j :: 0 <= j < |rows| ==> rows[j] < |acc.invoices| && InstallmentDue(acc.invoices[rows[j]], now)
    requires forall j, k :: 0 <= j < k < |rows| ==> rows[j] < rows[k]
    requires !ChargeRows(acc, rows, charge, now).raised
    ensures var post := ChargeRows(acc, rows, charge, now).account;
            && |post.invoices| == |acc.invoices| && post.sub.kind == Installment && post.sub.hasCard
            && (i < |acc.invoices| ==>
                  var before := acc.invoices[i];
                  if i in rows then
                    post.invoices[i].calls == before.calls +
                      [ProviderCall(before.attemptCount, before.amountDue, charge(i), false, now)]
                  else post.invoices[i] == before)
  {
    hide InstallmentDue, ChargeInstallment, DunnedBy;
    if rows != [] {
      var n := |rows| - 1;
      RowsAreCharged(acc, rows[..n], charge, now, i);
      RowsAreCharged(acc, rows[..n], charge, now, rows[n]);
      var before := ChargeRows(acc, rows[..n], charge, now).account;
      assert rows[n] !in rows[..n];
      DueIsOpen(before.invoices[rows[n]], now);
      InstallmentTouchesOneInvoice(before, rows[n], charge(rows[n]), now);
      InstallmentKeepsCard(before, rows[n], charge(rows[n]), now);
      InstallmentOutcome(before, rows[n], charge(rows[n]), now);
    }
  }

  lemma DueIsOpen(inv: Invoice, now: Instant)
    requires InstallmentDue(inv, now)
    ensures inv.status == Open
  {}

  // What the installment worker does with every invoice of an active installment
  // subscription with a card, unless it is left by an exception: it charges exactly those
  // that are due when it starts and not in dunning.
  lemma DueInstallmentsAreCharged(acc: Account, charge: nat -> Charge, now: Instant, i: nat)
    requires i < |acc.invoices| && acc.sub.kind == Installment && acc.sub.status == Active && acc.sub.hasCard
    requires !InstallmentRun(acc, charge, now).raised
    ensures var post := InstallmentRun(acc, charge, now).account;
            var before := acc.invoices[i];
            && |post.invoices| == |acc.invoices|
            && if before.status == Open && before.nextRetryAt.None? &&
                  (exists due :: before.dueDate == Some(due) && due <= now)
               then post.invoices[i].calls == before.calls +
                      [ProviderCall(before.attemptCount, before.amountDue, charge(i), false, now)]
               else post.invoices[i] == before
  {
    hide ChargeRows, Select;
    var wanted := (k: nat) => k < |acc.invoices| && InstallmentDue(acc.invoices[k], now);
    SelectsExactly(|acc.invoices|, wanted);
    assert DueInstallments(acc, now) == Select(|acc.invoices|, wanted);
    RowsAreCharged(acc, DueInstallments(acc, now), charge, now, i);
    if InstallmentDue(acc.invoices[i], now) {
      assert acc.invoices[i].dueDate == Some(acc.invoices[i].dueDate.value);
    }
  }

  // A subscription that is not an active installment plan is not touched by it.
  lemma OtherSubscriptionsAreSkipped(acc: Account, charge: nat -> Charge, now: Instant)
    requires acc.sub.kind != Installment || acc.sub.status != Active
    ensures InstallmentRun(acc, charge, now) == Outcome(acc, false)
  {}

  lemma InstallmentTouchesOneInvoice(acc: Account, i: nat, charge: Charge, now: Instant)
    requires i < |acc.invoices| && InstallmentDue(acc.invoices[i], now) && acc.sub.kind == Installment
    ensures var post := ChargeInstallment(acc, i, charge, now).account;
            && |post.invoices| == |acc.invoices| && post.sub.kind == Installment
            && (forall k :: 0 <= k < |acc.invoices| && k != i ==> post.invoices[k] == acc.invoices[k])
            && Next(acc, InstallmentStep(i, charge), now) == post
  {
    var changed, change := InstallmentChange(acc, i, charge, now);
    hide ChargeInstallment, InstallmentDue;
    InstallmentKeepsKind(acc, i, charge, now);
  }

  lemma InstallmentKeepsKind(acc: Account, i: nat, charge: Charge, now: Instant)
    requires i < |acc.invoices|
    ensures ChargeInstallment(acc, i, charge, now).account.sub.kind == acc.sub.kind
  {
    hide RecordCharge, NothingOutstanding, MoveInvoice, NextRetryGapDays, CountRetries;
  }

  // What the installment worker does to an account is a run of installment steps, so
  // the theorems about runs cover it, and a worker that was left by an exception.
  lemma InstallmentWorkerIsRun(acc: Account, charge: nat -> Charge, now: Instant) returns (steps: seq<Timed>)
    ensures Run(acc, steps) == InstallmentRun(acc, charge, now).account
    ensures forall p :: 0 <= p < |steps| ==> steps[p].now == now && steps[p].step.InstallmentStep?
  {
    hide InstallmentDue, Run, ChargeRows;
    SelectInOrder(|acc.invoices|, (i: nat) => i < |acc.invoices| && InstallmentDue(acc.invoices[i], now));
    steps := ChargedRowsAreRun(acc, DueInstallments(acc, now), charge, now);
  }

  lemma {:induction false} ChargedRowsAreRun(acc: Account, rows: seq<nat>, charge: nat -> Charge, now: Instant)
    returns (steps: seq<Timed>)
    requires rows != [] ==> acc.sub.kind == Installment
    requires forall j :: 0 <= j < |rows| ==> rows[j] < |acc.invoices| && InstallmentDue(acc.invoices[rows[j]], now)
    requires forall j, k :: 0 <= j < k < |rows| ==> rows[j] < rows[k]
    ensures Run(acc, steps) == ChargeRows(acc, rows, charge, now).account
    ensures forall p :: 0 <= p < |steps| ==> steps[p].now == now && steps[p].step.InstallmentStep?
    ensures var post := Run(acc, steps);
            && |post.invoices| == |acc.invoices| && post.sub.kind == acc.sub.kind
            && (forall k :: 0 <= k < |acc.invoices| && k !in rows ==> post.invoices[k] == acc.invoices[k])
  {
    hide Next, InstallmentDue, ChargeInstallment;
    if rows == [] {
      steps := [];
    } else {
      var n := |rows| - 1;
      steps := ChargedRowsAreRun(acc, rows[..n], charge, now);
      if !ChargeRows(acc, rows[..n], charge, now).raised {
        var before := Run(acc, steps);
        assert rows[n] !in rows[..n];
        InstallmentTouchesOneInvoice(before, rows[n], charge(rows[n]), now);
        var last := Timed(InstallmentStep(rows[n], charge(rows[n])), now);
        RunOneMore(acc, steps, last);
        steps := steps + [last];
      }
    }
  }

  lemma RenewalWorkerStep(acc: Account, charge: Charge, now: Instant)
    ensures Next(acc, RenewStep(charge), now) ==
            if RenewalDue(acc, now) then Renew(acc, charge, now).account else acc
  {
    hide Renew;
  }

  lemma GraceWorkerStep(acc: Account, now: Instant)
    ensures Next(acc, GraceStep, now) == if GraceExpired(acc, now) then ExpireGrace(acc, now).account else acc
  {
    hide ExpireGrace;
  }

  class BillingDatabase {
    var accounts: seq<AccountRecord>
    var events: set<string>

    ghost predicate Valid()
      reads this
    {
      forall j, k :: 0 <= j < k < |accounts| ==> accounts[j] != accounts[k]
    }

    ghost function Snapshot(): (db: Webhooks.Database)
      reads this, accounts
      ensures |db.accounts| == |accounts| && db.events == events
      ensures forall k :: 0 <= k < |accounts| ==> db.accounts[k] == accounts[k].State()
    {
      Webhooks.Database(
        seq(|accounts|, k requires 0 <= k < |accounts| reads this, accounts => accounts[k].State()), events)
    }

    // The hourly renewal worker takes one renewal step of every account.
    method ProcessBillingCycle(charge: nat -> Charge, now: Instant)
      requires Valid()
      modifies accounts
      ensures accounts == old(accounts) && Valid()
      ensures forall k :: 0 <= k < |accounts| ==>
                accounts[k].State() == Next(old(accounts[k].State()), RenewStep(charge(k)), now)
    {
      hide Next, Renew;
      for k := 0 to |accounts|
        invariant accounts == old(accounts)
        invariant forall j :: 0 <= j < k ==>
                    accounts[j].State() == Next(old(accounts[j].State()), RenewStep(charge(j)), now)
        invariant forall j :: k <= j < |accounts| ==> accounts[j].State() == old(accounts[j].State())
      {
        RenewalWorkerStep(accounts[k].State(), charge(k), now);
        if RenewalDue(accounts[k].State(), now) {
          var _ := accounts[k].RenewDue(charge(k), now);
        }
      }
    }

    // The daily grace worker takes one grace step of every account.
    method ProcessUnpaidGrace(now: Instant)
      requires Valid()
      modifies accounts
      ensures accounts == old(accounts) && Valid()
      ensures forall k :: 0 <= k < |accounts| ==>
                accounts[k].State() == Next(old(accounts[k].State()), GraceStep, now)
    {
      hide Next;
      for k := 0 to |accounts|
        invariant accounts == old(accounts)
        invariant forall j :: 0 <= j < k ==>
                    accounts[j].State() == Next(old(accounts[j].State()), GraceStep, now)
        invariant forall j :: k <= j < |accounts| ==> accounts[j].State() == old(accounts[j].State())
      {
        GraceWorkerStep(accounts[k].State(), now);
        if GraceExpired(accounts[k].State(), now) {
          var target := if accounts[k].kind == Installment then Defaulted else Canceled;
          var _ := accounts[k].RequestStatus(target, now);
        }
      }
    }

    // The dunning worker runs, on every account, the retry steps of the invoices that
    // were due when it started.
    method ProcessDunningRetries(charge: (nat, nat) -> Charge, now: Instant)
      requires Valid()
      modifies accounts
      ensures accounts == old(accounts) && Valid()
      ensures forall k :: 0 <= k < |accounts| ==>
                accounts[k].State() ==
                  Run(old(accounts[k].State()), RetrySteps(old(DueRetries(accounts[k].State(), now)), (i: nat) => charge(k, i), now))
    {
      hide Run, RetrySteps, DueRetries;
      for k := 0 to |accounts|
        invariant accounts == old(accounts)
        invariant forall j :: 0 <= j < k ==>
                    accounts[j].State() ==
                      Run(old(accounts[j].State()), RetrySteps(old(DueRetries(accounts[j].State(), now)), (i: nat) => charge(j, i), now))
        invariant forall j :: k <= j < |accounts| ==> accounts[j].State() == old(accounts[j].State())
      {
        RetryAccount(accounts[k], (i: nat) => charge(k, i), now);
      }
    }

    // The installment worker charges, account by account, the rows that were due and
    // active when it started. An exception other than the provider's own leaves the
    // worker at once: the rows and accounts behind it are not processed.
    method ProcessDueInstallments(charge: (nat, nat) -> Charge, now: Instant) returns (raised: bool, done: nat)
      requires Valid()
      modifies accounts
      ensures accounts == old(accounts) && Valid()
      ensures done <= |accounts| && (raised <==> done < |accounts|)
      ensures forall k :: 0 <= k < |accounts| ==>
                accounts[k].State() ==
                  if k <= done then InstallmentRun(old(accounts[k].State()), (i: nat) => charge(k, i), now).account
                  else old(accounts[k].State())
      ensures forall k :: 0 <= k < |accounts| && k <= done ==>
                (InstallmentRun(old(accounts[k].State()), (i: nat) => charge(k, i), now).raised <==> k == done)
    {
      hide InstallmentRun;
      raised, done := false, 0;
      while done < |accounts|
        invariant accounts == old(accounts)
        invariant done <= |accounts|
        invariant forall j :: 0 <= j < done ==>
                    InstallmentRun(old(accounts[j].State()), (i: nat) => charge(j, i), now) ==
                      Outcome(accounts[j].State(), false)
        invariant forall j :: done <= j < |accounts| ==> accounts[j].State() == old(accounts[j].State())
        invariant !raised
      {
        raised := ChargeAccount(accounts[done], (i: nat) => charge(done, i), now);
        if raised { return; }
        done := done + 1;
      }
    }

    // process_nomba_webhook
    method ProcessNombaWebhook(event: Webhooks.WebhookEvent, now: Instant) returns (raised: bool)
      requires Valid()
      modifies this`events, accounts
      ensures accounts == old(accounts) && Valid()
      ensures Webhooks.Processed(Snapshot(), raised) ==
              Webhooks.Process(old(Snapshot()), Webhooks.Delivery(event, now))
    {
      hide WebhookSucceeded, WebhookFailed;
      raised := false;
      if event.id in events {
        return;
      }
      var ref := Webhooks.Reference(event);
      if !ref.Uuid? || ref.account >= |accounts| || ref.index >= |accounts[ref.account].invoices| {
        return;
      }
      var target := accounts[ref.account];
      match event.kind {
        case PaymentSucceeded => raised := target.SettleByWebhook(ref.index, event.id, now);
        case PaymentFailed => target.DeclineByWebhook(ref.index, event.id, now);
        case Unhandled =>
      }
      if !raised {
        events := events + {event.id};
      }
    }
  }

  method RetryAccount(record: AccountRecord, charge: nat -> Charge, now: Instant)
    modifies record
    ensures record.State() ==
              Run(old(record.State()), RetrySteps(old(DueRetries(record.State(), now)), charge, now))
  {
    hide Retry, Next, RetryDue, Select;
    ghost var acc := record.State();
    var rows := DueRetries(record.State(), now);
    SelectInOrder(|acc.invoices|, (i: nat) => i < |acc.invoices| && RetryDue(acc.invoices[i], now));
    assert Run(acc, RetrySteps(rows[..0], charge, now)) == acc;
    hide Run, RetrySteps, DueRetries;
    for j := 0 to |rows|
      invariant record.State() == Run(acc, RetrySteps(rows[..j], charge, now))
    {
      RetryOneMore(acc, rows, charge, now, j);
      var _ := record.RetryInvoice(rows[j], charge(rows[j]), now);
    }
    assert rows[..|rows|] == rows;
  }

  lemma RetryOneMore(acc: Account, rows: seq<nat>, charge: nat -> Charge, now: Instant, j: nat)
    requires forall j :: 0 <= j < |rows| ==> rows[j] < |acc.invoices| && RetryDue(acc.invoices[rows[j]], now)
    requires forall j, k :: 0 <= j < k < |rows| ==> rows[j] < rows[k]
    requires j < |rows|
    ensures var mid := Run(acc, RetrySteps(rows[..j], charge, now));
            rows[j] < |mid.invoices| &&
            Run(acc, RetrySteps(rows[..j + 1], charge, now)) == Retry(mid, rows[j], charge(rows[j]), now).account
  {
    hide Retry, Next, Run, RetryDue;
    RetryRunSoFar(acc, rows[..j], charge, now);
    assert rows[..j + 1][..j] == rows[..j];
    assert rows[j] !in rows[..j];
    RunOneMore(acc, RetrySteps(rows[..j], charge, now), Timed(RetryStep(rows[j], charge(rows[j])), now));
    RetryTouchesOneInvoice(Run(acc, RetrySteps(rows[..j], charge, now)), rows[j], charge(rows[j]), now);
  }

  method ChargeAccount(record: AccountRecord, charge: nat -> Charge, now: Instant) returns (raised: bool)
    modifies record
    ensures Outcome(record.State(), raised) == InstallmentRun(old(record.State()), charge, now)
  {
    hide ChargeInstallment, InstallmentDue, Select;
    ghost var acc := record.State();
    var rows := DueInstallments(record.State(), now);
    SelectInOrder(|acc.invoices|, (i: nat) => i < |acc.invoices| && InstallmentDue(acc.invoices[i], now));
    raised := false;
    for j := 0 to |rows|
      invariant ChargeRows(acc, rows[..j], charge, now) == Outcome(record.State(), false)
      invariant |record.invoices| == |acc.invoices|
    {
      assert rows[..j + 1][..j] == rows[..j];
      raised := record.ChargeInstallmentRow(rows[j], charge(rows[j]), now);
      if raised {
        RaisedStops(acc, rows, j + 1, charge, now);
        return;
      }
    }
    assert rows[..|rows|] == rows;
  }

  lemma {:induction false} RaisedStops(acc: Account, rows: seq<nat>, j: nat, charge: nat -> Charge, now: Instant)
    requires j <= |rows| && ChargeRows(acc, rows[..j], charge, now).raised
    ensures ChargeRows(acc, rows, charge, now) == ChargeRows(acc, rows[..j], charge, now)
    decreases |rows| - j
  {
    hide ChargeInstallment;
    if j == |rows| {
      assert rows[..j] == rows;
    } else {
      assert rows[..j + 1][..j] == rows[..j];
      RaisedStops(acc, rows, j + 1, charge, now);
    }
  }
}
