// app/webhooks/service.py: asynchronous payment outcomes, delivered at least once.
module Webhooks {
  import opened Prelude
  import opened Model
  import opened Billing
  import opened Changes
  import opened Installments
  import opened Outcomes
  import Calendar
  import RetryPolicy

  // A reference field of the payload: absent, not a UUID, or the UUID of the
  // index-th invoice of an account (which need not exist).
  datatype Candidate = Absent | Malformed | Uuid(account: nat, index: nat)

  // What the event type says: it contains "success", else "fail", else neither.
  datatype EventKind = PaymentSucceeded | PaymentFailed | Unhandled

  datatype WebhookEvent = WebhookEvent(
    id: string, orderReference: Candidate, merchantTxRef: Candidate, kind: EventKind)

  datatype Delivery = Delivery(event: WebhookEvent, now: Instant)

  datatype Database = Database(accounts: seq<Account>, events: set<string>)

  // The order reference wins when it is a UUID.
  function Reference(event: WebhookEvent): Candidate {
    if event.orderReference.Uuid? then event.orderReference else event.merchantTxRef
  }

  predicate Resolves(db: Database, event: WebhookEvent) {
    var ref := Reference(event);
    ref.Uuid? && ref.account < |db.accounts| && ref.index < |db.accounts[ref.account].invoices|
  }

  function Handle(acc: Account, i: nat, event: WebhookEvent, now: Instant): Outcome
    requires i < |acc.invoices|
  {
    match event.kind
    case PaymentSucceeded => WebhookSucceeded(acc, i, event.id, now)
    case PaymentFailed => WebhookFailed(acc, i, event.id, now)
    case Unhandled => Outcome(acc, false)
  }

  datatype Processed = Processed(db: Database, raised: bool)

  // process_nomba_webhook. The event is recorded last, so an exception in the
  // handler leaves it unrecorded.
  function Process(db: Database, delivery: Delivery): Processed {
    var event := delivery.event;
    if event.id in db.events || !Resolves(db, event) then Processed(db, false)
    else
      var ref := Reference(event);
      var outcome := Handle(db.accounts[ref.account], ref.index, event, delivery.now);
      Processed(
        Database(db.accounts[ref.account := outcome.account],
                 if outcome.raised then db.events else db.events + {event.id}),
        outcome.raised)
  }

  function ProcessAll(db: Database, ds: seq<Delivery>): Database {
    if ds == [] then db
    else Process(ProcessAll(db, ds[..|ds| - 1]), ds[|ds| - 1]).db
  }

  // A new event that reports the payment of the last outstanding installment of a
  // subscription that is not active.
  predicate StrandsInstallment(db: Database, event: WebhookEvent) {
    && event.id !in db.events && Resolves(db, event) && event.kind == PaymentSucceeded
    && var ref := Reference(event);
       var acc := db.accounts[ref.account];
       && acc.invoices[ref.index].status == Open
       && acc.sub.kind == Installment && acc.sub.status !in {Active, Completed}
       && OthersSettled(acc, ref.index)
  }

  // A report of a payment on an invoice that can not be paid.
  predicate ReportsUnpayable(db: Database, event: WebhookEvent) {
    && Resolves(db, event) && event.kind == PaymentSucceeded
    && var ref := Reference(event);
       db.accounts[ref.account].invoices[ref.index].status in {Draft, Void, Uncollectible}
  }

  // No delivery finds the last outstanding installment of a subscription that is not
  // active. Handlers may still raise, on invoices that cannot be paid.
  ghost predicate NoneStrands(db: Database, ds: seq<Delivery>) {
    forall k :: 0 <= k < |ds| ==> !StrandsInstallment(ProcessAll(db, ds[..k]), ds[k].event)
  }

  ghost predicate NoneRaises(db: Database, ds: seq<Delivery>) {
    forall k :: 0 <= k < |ds| ==> !Process(ProcessAll(db, ds[..k]), ds[k]).raised
  }

  // A delivery that would strand an installment plan raises.
  lemma RaisingNothingStrandsNothing(db: Database, ds: seq<Delivery>)
    requires NoneRaises(db, ds)
    ensures NoneStrands(db, ds)
  {
    hide Handle, ProcessAll, OthersSettled;
    forall k | 0 <= k < |ds| ensures !StrandsInstallment(ProcessAll(db, ds[..k]), ds[k].event) {
      var at, d := ProcessAll(db, ds[..k]), ds[k];
      assert !Process(at, d).raised;
      if StrandsInstallment(at, d.event) {
        var ref := Reference(d.event);
        HandlerRaisesIff(at.accounts[ref.account], ref.index, d.event, d.now);
      }
    }
  }

  predicate SeenIn(ds: seq<Delivery>, id: string) {
    exists k :: 0 <= k < |ds| && ds[k].event.id == id
  }

  function FirstOccurrences(ds: seq<Delivery>): seq<Delivery> {
    if ds == [] then []
    else
      var prior, last := ds[..|ds| - 1], ds[|ds| - 1];
      FirstOccurrences(prior) + (if SeenIn(prior, last.event.id) then [] else [last])
  }

  // Handlers never issue invoices, so a reference that does not resolve never will.
  lemma HandlerIssuesNothing(acc: Account, i: nat, event: WebhookEvent, now: Instant)
    requires i < |acc.invoices|
    ensures |Handle(acc, i, event, now).account.invoices| == |acc.invoices|
  {
    hide WebhookSucceeded, WebhookFailed, Take;
    match event.kind
    case PaymentSucceeded =>
      OnlyBillingIssues(acc, WebhookSuccessStep(i, event.id), now);
      WebhookSteps(acc, i, event.id, now);
    case PaymentFailed =>
      OnlyBillingIssues(acc, WebhookFailureStep(i, event.id), now);
      WebhookSteps(acc, i, event.id, now);
    case Unhandled =>
  }

  lemma WebhookSteps(acc: Account, i: nat, eventId: string, now: Instant)
    requires i < |acc.invoices|
    ensures Take(acc, WebhookSuccessStep(i, eventId), now) == WebhookSucceeded(acc, i, eventId, now)
    ensures Take(acc, WebhookFailureStep(i, eventId), now) == WebhookFailed(acc, i, eventId, now)
  {}

  lemma ProcessKeepsShape(db: Database, d: Delivery)
    ensures var post := Process(db, d).db;
            && db.events <= post.events
            && (forall event :: Resolves(post, event) <==> Resolves(db, event))
  {
    hide Handle;
    if d.event.id !in db.events && Resolves(db, d.event) {
      var ref := Reference(d.event);
      HandlerIssuesNothing(db.accounts[ref.account], ref.index, d.event, d.now);
    }
  }

  // Nor do they make an invoice payable.
  lemma HandlerKeepsUnpayable(acc: Account, i: nat, event: WebhookEvent, now: Instant, j: nat)
    requires i < |acc.invoices| && j < |acc.invoices|
    requires acc.invoices[j].status in {Draft, Void, Uncollectible}
    ensures var post := Handle(acc, i, event, now).account;
            |post.invoices| == |acc.invoices| && post.invoices[j].status == acc.invoices[j].status
  {
    hide WebhookSucceeded, WebhookFailed, Take, Apply, Allowed;
    if event.kind != Unhandled {
      HandlerIssuesNothing(acc, i, event, now);
      WebhookSteps(acc, i, event.id, now);
      var step := if event.kind == PaymentSucceeded then WebhookSuccessStep(i, event.id)
                  else WebhookFailureStep(i, event.id);
      var changed, k, inv, change := StepChange(acc, step, now);
      if changed { ChangeKeepsUnpayable(inv, change, Live(acc.sub), now); }
    }
  }

  lemma ChangeKeepsUnpayable(inv: Invoice, change: Change, live: bool, now: Instant)
    requires Allowed(inv, change, live, now)
    ensures inv.status in {Draft, Void, Uncollectible} ==> Apply(inv, change, now).status == inv.status
  {}

  lemma ProcessKeepsUnpayable(db: Database, d: Delivery, event: WebhookEvent)
    requires ReportsUnpayable(db, event)
    ensures ReportsUnpayable(Process(db, d).db, event)
  {
    hide Handle;
    ProcessKeepsShape(db, d);
    var at, ref := Reference(d.event), Reference(event);
    if d.event.id !in db.events && Resolves(db, d.event) && at.account == ref.account {
      HandlerKeepsUnpayable(db.accounts[at.account], at.index, d.event, d.now, ref.index);
    }
  }

  // What processing leaves of a delivery: its id is recorded, or it did not resolve, or
  // it reported the payment of an invoice that cannot be paid and raised.
  lemma {:induction false} ProcessedIsSettled(db: Database, ds: seq<Delivery>, k: nat)
    requires k < |ds| && NoneStrands(db, ds)
    ensures var post := ProcessAll(db, ds);
            && (ds[k].event.id in post.events || !Resolves(post, ds[k].event) || ReportsUnpayable(post, ds[k].event))
            && (!Process(ProcessAll(db, ds[..k]), ds[k]).raised ==>
                  ds[k].event.id in post.events || !Resolves(post, ds[k].event))
    decreases |ds|
  {
    hide Process, Resolves, ReportsUnpayable;
    var prior := ds[..|ds| - 1];
    var before, last := ProcessAll(db, prior), ds[|ds| - 1];
    PrefixStrandsNothing(db, ds);
    ProcessKeepsShape(before, last);
    if k < |ds| - 1 {
      assert prior[..k] == ds[..k];
      ProcessedIsSettled(db, prior, k);
      if ReportsUnpayable(before, ds[k].event) { ProcessKeepsUnpayable(before, last, ds[k].event); }
    } else {
      assert ds[..k] == prior;
      LastIsSettled(before, last);
    }
  }

  lemma LastIsSettled(db: Database, d: Delivery)
    requires !StrandsInstallment(db, d.event)
    ensures var post := Process(db, d).db;
            && (d.event.id in post.events || !Resolves(post, d.event) || ReportsUnpayable(post, d.event))
            && (!Process(db, d).raised ==> d.event.id in post.events || !Resolves(post, d.event))
  {
    hide Handle, OthersSettled;
    if d.event.id !in db.events && Resolves(db, d.event) {
      var ref := Reference(d.event);
      HandlerRaisesIff(db.accounts[ref.account], ref.index, d.event, d.now);
      if ReportsUnpayable(db, d.event) { ProcessKeepsUnpayable(db, d, d.event); }
    }
  }

  lemma PrefixStrandsNothing(db: Database, ds: seq<Delivery>)
    requires NoneStrands(db, ds) && ds != []
    ensures NoneStrands(db, ds[..|ds| - 1])
  {
    hide StrandsInstallment;
    var prior := ds[..|ds| - 1];
    forall k | 0 <= k < |prior| ensures !StrandsInstallment(ProcessAll(db, prior[..k]), prior[k].event) {
      assert prior[..k] == ds[..k];
    }
  }

  // Deduplication: as long as deliveries with equal ids carry equal payloads and no
  // delivery strands an installment plan, processing a list of deliveries equals
  // processing the first delivery of each id, including those that end early because
  // their reference does not resolve and those that raise on an unpayable invoice. A
  // list on which no handler raises strands nothing.
  lemma {:induction false} Deduplicates(db: Database, ds: seq<Delivery>)
    requires forall j, k :: 0 <= j < |ds| && 0 <= k < |ds| && ds[j].event.id == ds[k].event.id ==>
               ds[j].event == ds[k].event
    requires NoneStrands(db, ds)
    ensures ProcessAll(db, ds) == ProcessAll(db, FirstOccurrences(ds))
  {
    hide Process, NoneStrands, ReportsUnpayable;
    if ds != [] {
      var prior, last := ds[..|ds| - 1], ds[|ds| - 1];
      PrefixStrandsNothing(db, ds);
      Deduplicates(db, prior);
      if SeenIn(prior, last.event.id) {
        var k :| 0 <= k < |prior| && prior[k].event.id == last.event.id;
        ProcessedIsSettled(db, prior, k);
        assert ds[k] == prior[k] && ds[k].event == last.event;
        SettledIsSkipped(ProcessAll(db, prior), last);
        assert FirstOccurrences(ds) == FirstOccurrences(prior);
      } else {
        var firsts := FirstOccurrences(prior);
        assert FirstOccurrences(ds) == firsts + [last];
        assert (firsts + [last])[..|firsts|] == firsts;
      }
    }
  }

  lemma SettledIsSkipped(db: Database, d: Delivery)
    requires d.event.id in db.events || !Resolves(db, d.event) || ReportsUnpayable(db, d.event)
    ensures Process(db, d).db == db
  {
    hide Handle;
    if ReportsUnpayable(db, d.event) {
      var ref := Reference(d.event);
      UnpayableIsUntouched(db.accounts[ref.account], ref.index, d.event, d.now);
      assert db.accounts[ref.account := db.accounts[ref.account]] == db.accounts;
    }
  }

  // ------------------------------------------------------- what a delivery does

  // The invoice that an event names: by its order reference, or by the transaction's
  // reference when the former is no UUID.
  predicate Names(event: WebhookEvent, account: nat, index: nat) {
    || event.orderReference == Uuid(account, index)
    || (!event.orderReference.Uuid? && event.merchantTxRef == Uuid(account, index))
  }

  // Exactly one attempt is added to the invoice, and it carries the id of the event.
  predicate Noted(before: Invoice, after: Invoice, status: PaymentStatus,
                  reason: Option<RetryPolicy.FailureReason>, id: string)
  {
    && after.attempts == before.attempts + [PaymentAttempt(status, reason, Event(id), 0, false)]
    && after.calls == before.calls && after.attemptCount == before.attemptCount
    && SameBill(before, after)
  }

  // A report of a failed payment is recorded and dunned as a declined card, whatever the
  // status of the invoice; it pays nothing.
  ghost predicate DeclineReported(a: Account, b: Account, i: nat, id: string, now: Instant) {
    && i < |a.invoices| && OnlyInvoiceChanged(a, b, i)
    && Noted(a.invoices[i], b.invoices[i], Failed, Some(RetryPolicy.CardDeclined), id)
    && SamePayment(a.invoices[i], b.invoices[i])
    && if Live(a.sub) then DunnedBy(a.invoices[i], b.invoices[i], Some(RetryPolicy.CardDeclined), b.sub.status, now)
       else b.sub == a.sub && SameDunning(a.invoices[i], b.invoices[i])
  }

  // A report of a payment leaves the invoice paid. Unless the completion of an
  // installment plan raises, it also ends the dunning of the invoice and activates a
  // subscription that was incomplete or past due, for a period from now on.
  ghost predicate PaymentReported(a: Account, b: Account, raised: bool, i: nat, id: string, now: Instant) {
    && i < |a.invoices| && OnlyInvoiceChanged(a, b, i)
    && Noted(a.invoices[i], b.invoices[i], Success, None, id)
    && b.invoices[i].status == Paid
    && (a.invoices[i].status == Open && a.invoices[i].paidAt.None? ==> b.invoices[i].paidAt == Some(now))
    && (a.invoices[i].status == Paid ==> SamePayment(a.invoices[i], b.invoices[i]))
    && if raised then b.sub == a.sub && SameDunning(a.invoices[i], b.invoices[i])
       else
         && b.invoices[i].nextRetryAt.None? && b.invoices[i].dunningReason.None?
         && if a.sub.status in {Incomplete, PastDue} then
              && b.sub.status == Active && b.sub.periodStart == Some(now)
              && b.sub.periodEnd ==
                   Some(Calendar.AdvanceBillingPeriod(now, a.sub.plan.interval, a.sub.plan.intervalCount))
            else
              && SamePeriod(a.sub, b.sub)
              && b.sub.status == (if a.invoices[i].status == Open && a.sub.kind == Installment &&
                                     a.sub.status == Active && OthersSettled(a, i)
                                  then Completed else a.sub.status)
  }

  // One delivery of the endpoint. A repeated event and one that names no invoice change
  // nothing. Any other touches no account but the one it names: a failure is dunned, a
  // payment pays, except that one for an invoice that cannot be paid raises and changes
  // nothing. The id is recorded exactly when the handler does not raise.
  lemma DeliveryOutcome(db: Database, event: WebhookEvent, now: Instant, account: nat, index: nat)
    requires event.id !in db.events && Names(event, account, index)
    requires account < |db.accounts| && index < |db.accounts[account].invoices|
    ensures var post := Process(db, Delivery(event, now));
            var before := db.accounts[account];
            && |post.db.accounts| == |db.accounts|
            && (forall k :: 0 <= k < |db.accounts| && k != account ==> post.db.accounts[k] == db.accounts[k])
            && post.db.events == (if post.raised then db.events else db.events + {event.id})
            && (match event.kind
                case Unhandled => !post.raised && post.db.accounts[account] == before
                case PaymentFailed =>
                  !post.raised && DeclineReported(before, post.db.accounts[account], index, event.id, now)
                case PaymentSucceeded =>
                  if before.invoices[index].status in {Draft, Void, Uncollectible} then
                    post.raised && post.db.accounts[account] == before
                  else
                    && PaymentReported(before, post.db.accounts[account], post.raised, index, event.id, now)
                    && (post.raised <==> StrandsInstallment(db, event)))
  {
    hide WebhookSucceeded, WebhookFailed, DeclineReported, PaymentReported, OthersSettled;
    var before := db.accounts[account];
    HandlerRaisesIff(before, index, event, now);
    match event.kind
    case Unhandled =>
    case PaymentFailed => FailureOutcome(before, index, event.id, now);
    case PaymentSucceeded =>
      if before.invoices[index].status in {Draft, Void, Uncollectible} {
        UnpayableIsUntouched(before, index, event, now);
      } else {
        SuccessOutcome(before, index, event.id, now);
      }
  }

  lemma NothingToDeliver(db: Database, event: WebhookEvent, now: Instant)
    requires event.id in db.events ||
             forall account: nat, index: nat :: Names(event, account, index) ==>
               account >= |db.accounts| || index >= |db.accounts[account].invoices|
    ensures Process(db, Delivery(event, now)) == Processed(db, false)
  {
    hide Handle;
    var ref := Reference(event);
    if ref.Uuid? { assert Names(event, ref.account, ref.index); }
  }

  lemma FailureOutcome(acc: Account, i: nat, id: string, now: Instant)
    requires i < |acc.invoices|
    ensures !WebhookFailed(acc, i, id, now).raised
    ensures DeclineReported(acc, WebhookFailed(acc, i, id, now).account, i, id, now)
  {
    hide OpenOrAdvanceDunning, Dunned, Exhausts, DunnedBy;
    var reason := Some(RetryPolicy.CardDeclined);
    var noted := NotePayment(acc.invoices[i], Failed, reason, id);
    var post := WebhookFailed(acc, i, id, now).account;
    DunningOutcome(SetInvoice(acc, i, noted), i, reason, now);
    if Live(acc.sub) {
      DunnedByTheBook(noted, reason, post.sub.status, now);
      AnchoredAlike(acc.invoices[i], noted, post.invoices[i], reason, post.sub.status, now);
    }
  }

  lemma SuccessOutcome(acc: Account, i: nat, id: string, now: Instant)
    requires i < |acc.invoices| && acc.invoices[i].status in {Open, Paid}
    ensures var post := WebhookSucceeded(acc, i, id, now);
            PaymentReported(acc, post.account, post.raised, i, id, now)
  {
    hide WebhookSucceeded, PaymentReported;
    if acc.invoices[i].status == Paid { PaidAgain(acc, i, id, now); }
    else { PaidNow(acc, i, id, now); }
  }

  lemma PaidAgain(acc: Account, i: nat, id: string, now: Instant)
    requires i < |acc.invoices| && acc.invoices[i].status == Paid
    ensures var post := WebhookSucceeded(acc, i, id, now);
            PaymentReported(acc, post.account, post.raised, i, id, now)
  {
    hide OthersSettled, TransitionInvoice, StartPeriod, MoveSubscription;
    if acc.sub.status in {Incomplete, PastDue} { StartedIsActive(acc.sub, now); }
  }

  lemma PaidNow(acc: Account, i: nat, id: string, now: Instant)
    requires i < |acc.invoices| && acc.invoices[i].status == Open
    ensures var post := WebhookSucceeded(acc, i, id, now);
            PaymentReported(acc, post.account, post.raised, i, id, now)
  {
    hide TransitionInvoice, Settled, OthersSettled, StartPeriod, MoveSubscription;
    var inv := NotePayment(acc.invoices[i], Success, None, id);
    var noted := SetInvoice(acc, i, inv);
    PayingKeepsOthers(noted, i, now);
    PaymentKeepsTerms(noted, i, now);
    PaymentDecides(noted, i, now);
    OthersSettledBy(acc, noted, i);
    SettledRecord(inv, now);
    SettledDunning(inv, now);
    RaisedPaymentKeepsSubscription(noted, i, now);
    var paid := TransitionInvoice(noted, i, Paid, now).account.sub;
    if paid.status in {Incomplete, PastDue} { StartedIsActive(paid, now); }
  }

  // Activation from incomplete or past due starts a period.
  lemma StartedIsActive(sub: Subscription, now: Instant)
    requires sub.status in {Incomplete, PastDue}
    ensures var moved := MoveSubscription(StartPeriod(sub, now), Active, now);
            && moved.Some? && moved.value.status == Active && moved.value.periodStart == Some(now)
            && moved.value.periodEnd ==
                 Some(Calendar.AdvanceBillingPeriod(now, sub.plan.interval, sub.plan.intervalCount))
  {
    hide Calendar.AdvanceBillingPeriod, Calendar.ComputePeriodEnd, SubscriptionMoveAllowed;
    ActivatesFrom(sub.status);
    Calendar.IntervalTablesAgree(now, sub.plan.interval, sub.plan.intervalCount, 0);
  }

  lemma ActivatesFrom(from: SubscriptionStatus)
    requires from in {Incomplete, PastDue}
    ensures SubscriptionMoveAllowed(from, Active)
  {}

  lemma SettledDunning(inv: Invoice, now: Instant)
    ensures SameDunning(inv, Settled(inv, now))
  {}

  lemma RaisedPaymentKeepsSubscription(acc: Account, i: nat, now: Instant)
    requires i < |acc.invoices|
    ensures TransitionInvoice(acc, i, Paid, now).raised ==> TransitionInvoice(acc, i, Paid, now).account.sub == acc.sub
  {}

  // ------------------------------------------------------------- raising handlers

  // A failure report never raises. A success report raises exactly when the invoice
  // can no longer be paid, or when it is the last outstanding invoice of an
  // installment subscription that is not active.
  lemma HandlerRaisesIff(acc: Account, i: nat, event: WebhookEvent, now: Instant)
    requires i < |acc.invoices|
    ensures Handle(acc, i, event, now).raised <==>
            event.kind == PaymentSucceeded &&
            (acc.invoices[i].status in {Draft, Void, Uncollectible} ||
             (acc.invoices[i].status == Open && acc.sub.kind == Installment &&
              acc.sub.status !in {Active, Completed} && OthersSettled(acc, i)))
  {
    hide WebhookSucceeded, OthersSettled;
    SuccessRaisesIff(acc, i, event.id, now);
  }

  lemma SuccessRaisesIff(acc: Account, i: nat, eventId: string, now: Instant)
    requires i < |acc.invoices|
    ensures WebhookSucceeded(acc, i, eventId, now).raised <==>
            acc.invoices[i].status in {Draft, Void, Uncollectible} ||
            (acc.invoices[i].status == Open && acc.sub.kind == Installment &&
             acc.sub.status !in {Active, Completed} && OthersSettled(acc, i))
  {
    hide TransitionInvoice, NothingOutstanding, OthersSettled;
    var inv := acc.invoices[i];
    var noted := SetInvoice(acc, i, NotePayment(inv, Success, None, eventId));
    if inv.status == Open {
      PaymentDecides(noted, i, now);
      PayingKeepsOthers(noted, i, now);
      OthersSettledBy(acc, noted, i);
    } else if inv.status != Paid {
      CannotPay(noted, i, now);
    }
  }

  // An event whose handler raises is not recorded, so its redelivery is processed
  // again. That changes something exactly when the first delivery committed a payment
  // before it raised; a report on an invoice that cannot be paid raises every time and
  // changes nothing.
  lemma RedeliveryChangesNothingIff(db: Database, event: WebhookEvent, now: Instant, later: Instant)
    ensures var once := Process(db, Delivery(event, now)).db;
            Process(once, Delivery(event, later)).db == once <==> !StrandsInstallment(db, event)
  {
    hide Handle, OthersSettled;
    if event.id !in db.events && Resolves(db, event) {
      var ref := Reference(event);
      var acc := db.accounts[ref.account];
      HandlerRaisesIff(acc, ref.index, event, now);
      if StrandsInstallment(db, event) {
        RaisingHandlerRunsTwice(db, event, now, later);
      } else if Handle(acc, ref.index, event, now).raised {
        UnpayableIsUntouched(acc, ref.index, event, now);
        UnpayableIsUntouched(acc, ref.index, event, later);
        assert db.accounts[ref.account := acc] == db.accounts;
      }
    }
  }

  lemma UnpayableIsUntouched(acc: Account, i: nat, event: WebhookEvent, now: Instant)
    requires i < |acc.invoices| && acc.invoices[i].status in {Draft, Void, Uncollectible}
    requires event.kind == PaymentSucceeded
    ensures Handle(acc, i, event, now) == Outcome(acc, true)
  {
    CannotPay(SetInvoice(acc, i, NotePayment(acc.invoices[i], Success, None, event.id)), i, now);
  }

  // What happens then, in any database: the first delivery commits the payment and
  // raises; the second records the same payment again, activates a subscription that
  // was incomplete or past due, and is recorded. By then the subscription has nothing
  // left to collect, and no run without a plan change completes it.
  lemma RaisingHandlerRunsTwice(db: Database, event: WebhookEvent, now: Instant, later: Instant)
    requires StrandsInstallment(db, event)
    ensures var ref := Reference(event);
            var acc := db.accounts[ref.account];
            var first := Process(db, Delivery(event, now));
            && first.raised && event.id !in first.db.events
            && var second := Process(first.db, Delivery(event, later));
               && !second.raised && event.id in second.db.events
               && |second.db.accounts| == |db.accounts|
               && var post := second.db.accounts[ref.account];
                  && |post.invoices| == |acc.invoices| && post.invoices[ref.index].status == Paid
                  && |post.invoices[ref.index].attempts| == |acc.invoices[ref.index].attempts| + 2
                  && post.sub.kind == Installment
                  && post.sub.status == (if acc.sub.status in {Incomplete, PastDue} then Active else acc.sub.status)
                  && NothingOutstanding(post)
  {
    hide Handle, OthersSettled, NothingOutstanding;
    var ref := Reference(event);
    var acc := db.accounts[ref.account];
    HandlerRaisesIff(acc, ref.index, event, now);
    FirstDelivery(acc, ref.index, event, now);
    SecondDelivery(Handle(acc, ref.index, event, now).account, ref.index, event, later);
  }

  lemma FirstDelivery(acc: Account, i: nat, event: WebhookEvent, now: Instant)
    requires i < |acc.invoices| && acc.invoices[i].status == Open && event.kind == PaymentSucceeded
    requires acc.sub.kind == Installment && acc.sub.status !in {Active, Completed} && OthersSettled(acc, i)
    ensures var post := Handle(acc, i, event, now).account;
            && |post.invoices| == |acc.invoices| && post.sub == acc.sub
            && post.invoices[i].status == Paid
            && |post.invoices[i].attempts| == |acc.invoices[i].attempts| + 1
            && NothingOutstanding(post)
  {
    hide TransitionInvoice;
    var noted := SetInvoice(acc, i, NotePayment(acc.invoices[i], Success, None, event.id));
    Installments.LastInstallmentCompletesIff(noted, i, now);
  }

  lemma SecondDelivery(acc: Account, i: nat, event: WebhookEvent, now: Instant)
    requires i < |acc.invoices| && acc.invoices[i].status == Paid && event.kind == PaymentSucceeded
    requires acc.sub.kind == Installment && NothingOutstanding(acc)
    ensures var post := Handle(acc, i, event, now);
            && !post.raised && |post.account.invoices| == |acc.invoices|
            && post.account.invoices[i].status == Paid
            && |post.account.invoices[i].attempts| == |acc.invoices[i].attempts| + 1
            && post.account.sub.kind == acc.sub.kind
            && post.account.sub.status == (if acc.sub.status in {Incomplete, PastDue} then Active else acc.sub.status)
            && NothingOutstanding(post.account)
  {}
}
