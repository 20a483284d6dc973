// The rows of the billing database and the two status tables. Rows that refer to
// one invoice (payment attempts, line items, audit rows) are kept, in the order
// they were written, inside that invoice.
module Model {
  import opened Prelude
  import opened Calendar
  import opened RetryPolicy

  datatype PaymentStatus = Success | Pending | NeedsAction | Failed | Refunded

  datatype SubscriptionStatus =
    | Incomplete | IncompleteExpired | Trialing | Active | PastDue
    | Unpaid | Paused | Canceled | Defaulted | Completed

  datatype InvoiceStatus = Draft | Open | Paid | Void | Uncollectible

  datatype SubscriptionType = Recurring | Installment

  datatype Plan = Plan(id: int, name: string, amount: int, currency: string,
                       interval: Interval, intervalCount: int, installmentsCount: Option<int>)

  // What a charge call came back with; an exception carries no result.
  datatype Charge =
    | Returned(status: PaymentStatus, reason: Option<FailureReason>)
    | Raised

  // The reference stored on an attempt: the idempotency key of a charge (the
  // attempt count it was made with), or the id of a webhook event.
  datatype Reference = ChargeKey(key: nat) | Event(id: string)

  datatype PaymentAttempt = PaymentAttempt(
    status: PaymentStatus, reason: Option<FailureReason>, reference: Reference,
    attemptNumber: nat, isRetry: bool)

  datatype AuditRow<+S> = AuditRow(oldStatus: S, newStatus: S, at: Instant)

  datatype LineItem = LineItem(description: string, amountMinor: int)

  // One call to the payment provider for an invoice, whether or not it returned.
  datatype ProviderCall = ProviderCall(key: nat, amountMinor: int, charge: Charge, isRetry: bool, at: Instant)

  datatype Invoice = Invoice(
    status: InvoiceStatus, amountDue: int,
    periodStart: Option<Instant>, periodEnd: Option<Instant>, dueDate: Option<Instant>,
    paidAt: Option<Instant>, attemptCount: nat,
    nextRetryAt: Option<Instant>, dunningReason: Option<FailureReason>,
    lineItems: seq<LineItem>, attempts: seq<PaymentAttempt>, audit: seq<AuditRow<InvoiceStatus>>,
    // History that the database does not store: the calls made to the provider,
    // and when the reason that anchors the current dunning cycle was recorded.
    calls: seq<ProviderCall>, firstFailureAt: Option<Instant>)

  datatype Subscription = Subscription(
    kind: SubscriptionType, status: SubscriptionStatus, plan: Plan, hasCard: bool,
    periodStart: Option<Instant>, periodEnd: Option<Instant>,
    canceledAt: Option<Instant>, updatedAt: Instant,
    audit: seq<AuditRow<SubscriptionStatus>>)

  // A subscription and the invoices that refer to it, oldest first.
  datatype Account = Account(sub: Subscription, invoices: seq<Invoice>)

  // ------------------------------------------------------------- status tables

  const SUBSCRIPTION_TRANSITIONS: map<SubscriptionStatus, set<SubscriptionStatus>> := map[
    Incomplete := {Active, IncompleteExpired, Canceled},
    Trialing := {Active, Paused, Canceled},
    Active := {PastDue, Paused, Completed, Canceled},
    PastDue := {Active, Unpaid, Canceled},
    Unpaid := {Active, Canceled},
    Paused := {Active, Canceled},
    IncompleteExpired := {},
    Canceled := {},
    Completed := {},
    Defaulted := {}
  ]

  const INVOICE_TRANSITIONS: map<InvoiceStatus, set<InvoiceStatus>> := map[
    Draft := {Open},
    Open := {Paid, Void, Uncollectible},
    Paid := {},
    Void := {},
    Uncollectible := {}
  ]

  predicate SubscriptionMoveAllowed(old_: SubscriptionStatus, new_: SubscriptionStatus) {
    old_ in SUBSCRIPTION_TRANSITIONS && new_ in SUBSCRIPTION_TRANSITIONS[old_]
  }

  predicate InvoiceMoveAllowed(old_: InvoiceStatus, new_: InvoiceStatus) {
    old_ in INVOICE_TRANSITIONS && new_ in INVOICE_TRANSITIONS[old_]
  }

  predicate SubscriptionTerminal(s: SubscriptionStatus) {
    s in {IncompleteExpired, Canceled, Completed, Defaulted}
  }

  predicate InvoiceTerminal(s: InvoiceStatus) {
    s in {Paid, Void, Uncollectible}
  }

  // ------------------------------------------------------ row-level transitions

  // The new row, or None when InvalidStateTransition is raised.
  function MoveSubscription(sub: Subscription, target: SubscriptionStatus, now: Instant): Option<Subscription> {
    if !SubscriptionMoveAllowed(sub.status, target) then None
    else Some(sub.(
      status := target,
      canceledAt := if target == Canceled && sub.canceledAt.None? then Some(now) else sub.canceledAt,
      updatedAt := now,
      audit := sub.audit + [AuditRow(sub.status, target, now)]))
  }

  function MoveInvoice(inv: Invoice, target: InvoiceStatus, now: Instant): Option<Invoice> {
    if !InvoiceMoveAllowed(inv.status, target) then None
    else Some(inv.(
      status := target,
      paidAt := if target == Paid && inv.paidAt.None? then Some(now) else inv.paidAt,
      audit := inv.audit + [AuditRow(inv.status, target, now)]))
  }

  // ----------------------------------------------------------- attempt counting

  // _count_retries
  function CountRetries(attempts: seq<PaymentAttempt>): nat {
    if attempts == [] then 0
    else CountRetries(attempts[..|attempts| - 1]) + (if attempts[|attempts| - 1].isRetry then 1 else 0)
  }

  // Retries that did not succeed, step-up requests aside.
  predicate HardFailure(a: PaymentAttempt) {
    a.isRetry && a.status != Success && a.reason != Some(RequiresAction)
  }

  function HardFailures(attempts: seq<PaymentAttempt>): nat {
    if attempts == [] then 0
    else HardFailures(attempts[..|attempts| - 1]) + (if HardFailure(attempts[|attempts| - 1]) then 1 else 0)
  }

  // The idempotency keys of the recorded charges, in order.
  function ChargeKeys(attempts: seq<PaymentAttempt>): seq<nat> {
    if attempts == [] then []
    else
      var last := attempts[|attempts| - 1];
      ChargeKeys(attempts[..|attempts| - 1]) + (if last.reference.ChargeKey? then [last.reference.key] else [])
  }

  function ReturnedCalls(calls: seq<ProviderCall>): nat {
    if calls == [] then 0
    else ReturnedCalls(calls[..|calls| - 1]) + (if calls[|calls| - 1].charge.Returned? then 1 else 0)
  }

  lemma CountingAppends(attempts: seq<PaymentAttempt>, a: PaymentAttempt)
    ensures CountRetries(attempts + [a]) == CountRetries(attempts) + (if a.isRetry then 1 else 0)
    ensures HardFailures(attempts + [a]) == HardFailures(attempts) + (if HardFailure(a) then 1 else 0)
    ensures ChargeKeys(attempts + [a]) ==
            ChargeKeys(attempts) + (if a.reference.ChargeKey? then [a.reference.key] else [])
  {
    assert (attempts + [a])[..|attempts|] == attempts;
  }

  lemma ReturnedCallsAppend(calls: seq<ProviderCall>, c: ProviderCall)
    ensures ReturnedCalls(calls + [c]) == ReturnedCalls(calls) + (if c.charge.Returned? then 1 else 0)
  {
    assert (calls + [c])[..|calls|] == calls;
  }
}
