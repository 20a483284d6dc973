// What each charging path leaves behind for each answer of the provider: the record of
// the call, the payment, or the dunning that a decline calls for.
module Outcomes {
  import opened Prelude
  import opened Calendar
  import opened RetryPolicy
  import opened Model
  import opened Billing
  import opened Changes
  import Proration
  import Installments
  import Dunning

  // Dunning by the documented schedule: the first failure anchors the cycle, retry k + 1
  // waits for the gap between the k-th and the next cumulative offset, and without an
  // offset left access is revoked, unless the invoice has never been retried and waits
  // for a new card.
  ghost predicate DunnedBy(before: Invoice, after: Invoice, reason: Option<FailureReason>,
                           status: SubscriptionStatus, now: Instant)
  {
    && after.dunningReason.Some?
    && (if before.dunningReason.Some? then
          after.dunningReason == before.dunningReason && after.firstFailureAt == before.firstFailureAt
        else
          after.dunningReason == Some(reason.GetOr(GenericDecline)) && after.firstFailureAt == Some(now))
    && var offsets, k := Schedule(after.dunningReason.value), CountRetries(after.attempts);
       && after.nextRetryAt ==
            (if k < |offsets| then Some(now + Days(offsets[k] - (if k == 0 then 0 else offsets[k - 1]))) else None)
       && status ==
            (if k < |offsets| || (k == 0 && after.dunningReason.value in {ExpiredCard, InvalidPaymentMethod})
             then PastDue else Unpaid)
  }

  predicate SameDunning(a: Invoice, b: Invoice) {
    a.nextRetryAt == b.nextRetryAt && a.dunningReason == b.dunningReason && a.firstFailureAt == b.firstFailureAt
  }

  predicate SameBill(a: Invoice, b: Invoice) {
    && a.amountDue == b.amountDue && a.lineItems == b.lineItems
    && a.periodStart == b.periodStart && a.periodEnd == b.periodEnd && a.dueDate == b.dueDate
  }

  predicate SamePayment(a: Invoice, b: Invoice) {
    a.status == b.status && a.paidAt == b.paidAt && a.audit == b.audit
  }

  predicate SameCalls(a: Invoice, b: Invoice) {
    a.calls == b.calls && a.attempts == b.attempts && a.attemptCount == b.attemptCount
  }

  lemma DunnedByTheBook(inv: Invoice, reason: Option<FailureReason>, status: SubscriptionStatus, now: Instant)
    requires status == (if Exhausts(Dunned(inv, reason, now)) then Unpaid else PastDue)
    ensures DunnedBy(inv, Dunned(inv, reason, now), reason, status, now)
    ensures SameBill(inv, Dunned(inv, reason, now)) && SamePayment(inv, Dunned(inv, reason, now))
    ensures SameCalls(inv, Dunned(inv, reason, now))
  {
    hide CountRetries;
    ScheduleShape(Anchored(inv, reason, now).dunningReason);
  }

  predicate OnlyInvoiceChanged(a: Account, b: Account, i: nat) {
    |b.invoices| == |a.invoices| && forall j :: 0 <= j < |a.invoices| && j != i ==> b.invoices[j] == a.invoices[j]
  }

  // One call for invoice i of an account, and what its answer leads to.
  ghost predicate ChargedOn(a: Account, b: Account, i: nat, amount: int, charge: Charge,
                            number: nat, isRetry: bool, now: Instant)
  {
    && i < |a.invoices| && OnlyInvoiceChanged(a, b, i)
    && var before, after := a.invoices[i], b.invoices[i];
       && SameBill(before, after)
       && after.calls == before.calls + [ProviderCall(before.attemptCount, amount, charge, isRetry, now)]
       && match charge
          case Raised =>
            && b.sub == a.sub && SameDunning(before, after) && SamePayment(before, after)
            && after.attempts == before.attempts && after.attemptCount == before.attemptCount
          case Returned(status, reason) =>
            && after.attempts == before.attempts +
                 [PaymentAttempt(status, reason, ChargeKey(before.attemptCount), number, isRetry)]
            && after.attemptCount == before.attemptCount + 1
            && if status == Success then
                 after.status == Paid && (before.paidAt.None? ==> after.paidAt == Some(now))
               else
                 && SamePayment(before, after)
                 && if Live(a.sub) && reason != Some(RequiresAction)
                    then DunnedBy(before, after, reason, b.sub.status, now)
                    else b.sub == a.sub && SameDunning(before, after)
  }

  // No card on file: a live subscription is dunned for it without a call.
  ghost predicate FlaggedForCard(a: Account, b: Account, i: nat, now: Instant) {
    && i < |a.invoices| && OnlyInvoiceChanged(a, b, i)
    && SameBill(a.invoices[i], b.invoices[i]) && SamePayment(a.invoices[i], b.invoices[i])
    && SameCalls(a.invoices[i], b.invoices[i])
    && if Live(a.sub) then DunnedBy(a.invoices[i], b.invoices[i], Some(InvalidPaymentMethod), b.sub.status, now)
       else b.sub == a.sub && SameDunning(a.invoices[i], b.invoices[i])
  }

  lemma FlaggingOutcome(acc: Account, i: nat, now: Instant)
    requires i < |acc.invoices|
    ensures FlaggedForCard(acc, OpenOrAdvanceDunning(acc, i, Some(InvalidPaymentMethod), now), i, now)
  {
    hide OpenOrAdvanceDunning, Dunned, Exhausts, DunnedBy;
    DunningOutcome(acc, i, Some(InvalidPaymentMethod), now);
    if Live(acc.sub) {
      var post := OpenOrAdvanceDunning(acc, i, Some(InvalidPaymentMethod), now);
      DunnedByTheBook(acc.invoices[i], Some(InvalidPaymentMethod), post.sub.status, now);
    }
  }

  lemma DeclineOutcome(acc: Account, i: nat, amount: int, charge: Charge, number: nat, isRetry: bool, now: Instant)
    requires i < |acc.invoices| && charge.Returned? && charge.status != Success
    ensures var charged := SetInvoice(acc, i, RecordCharge(acc.invoices[i], amount, charge, number, isRetry, now));
            ChargedOn(acc, OpenOrAdvanceDunning(charged, i, charge.reason, now), i, amount, charge, number, isRetry, now)
  {
    hide OpenOrAdvanceDunning, Dunned, Exhausts, DunnedBy;
    var inv := RecordCharge(acc.invoices[i], amount, charge, number, isRetry, now);
    var charged := SetInvoice(acc, i, inv);
    var post := OpenOrAdvanceDunning(charged, i, charge.reason, now);
    DunningOutcome(charged, i, charge.reason, now);
    if EligibleForDunning(acc, charge.reason) {
      DunnedByTheBook(inv, charge.reason, post.sub.status, now);
      AnchoredAlike(acc.invoices[i], inv, post.invoices[i], charge.reason, post.sub.status, now);
    }
  }

  lemma AnchoredAlike(before: Invoice, charged: Invoice, after: Invoice, reason: Option<FailureReason>,
                      status: SubscriptionStatus, now: Instant)
    requires SameDunning(before, charged) && DunnedBy(charged, after, reason, status, now)
    ensures DunnedBy(before, after, reason, status, now)
  {}

  lemma PaymentOutcome(acc: Account, i: nat, amount: int, charge: Charge, number: nat, isRetry: bool, now: Instant)
    requires i < |acc.invoices| && acc.invoices[i].status == Open
    requires charge.Returned? && charge.status == Success
    ensures var charged := SetInvoice(acc, i, RecordCharge(acc.invoices[i], amount, charge, number, isRetry, now));
            var paid := TransitionInvoice(charged, i, Paid, now);
            && ChargedOn(acc, paid.account, i, amount, charge, number, isRetry, now)
            && (acc.sub.kind == Recurring ==> !paid.raised && paid.account.sub == acc.sub)
            && (paid.raised <==> acc.sub.kind == Installment && acc.sub.status !in {Active, Completed} &&
                                 Installments.OthersSettled(acc, i))
            && paid.account.sub.status ==
                 (if acc.sub.kind == Installment && acc.sub.status == Active && Installments.OthersSettled(acc, i)
                  then Completed else acc.sub.status)
  {
    hide RecordCharge, TransitionInvoice, Installments.OthersSettled, DunnedBy;
    var inv := RecordCharge(acc.invoices[i], amount, charge, number, isRetry, now);
    var charged := SetInvoice(acc, i, inv);
    RecordedCharge(acc.invoices[i], amount, charge, number, isRetry, now);
    PayingKeepsOthers(charged, i, now);
    SettledRecord(inv, now);
    Installments.PaymentDecides(charged, i, now);
    Installments.OthersSettledBy(acc, charged, i);
  }

  lemma RecordedCharge(inv: Invoice, amount: int, charge: Charge, number: nat, isRetry: bool, now: Instant)
    requires charge.Returned?
    ensures var post := RecordCharge(inv, amount, charge, number, isRetry, now);
            && SameBill(inv, post) && SamePayment(inv, post) && SameDunning(inv, post)
            && post.calls == inv.calls + [ProviderCall(inv.attemptCount, amount, charge, isRetry, now)]
            && post.attempts == inv.attempts +
                 [PaymentAttempt(charge.status, charge.reason, ChargeKey(inv.attemptCount), number, isRetry)]
            && post.attemptCount == inv.attemptCount + 1
  {}

  lemma SettledRecord(inv: Invoice, now: Instant)
    requires inv.status == Open
    ensures var post := Settled(inv, now);
            && SameBill(inv, post) && SameCalls(inv, post)
            && post.status == Paid && (inv.paidAt.None? ==> post.paidAt == Some(now))
  {}

  // ---------------------------------------------------------- the charging paths

  // A due installment is charged whenever a card is on file, and flagged otherwise. The
  // row raises exactly when it pays the last outstanding invoice of a subscription that
  // is no longer active, and completes the subscription exactly when it pays the last
  // one of an active subscription.
  lemma InstallmentOutcome(acc: Account, i: nat, charge: Charge, now: Instant)
    requires i < |acc.invoices| && acc.invoices[i].status == Open && acc.sub.kind == Installment
    ensures var post := ChargeInstallment(acc, i, charge, now);
            var inv := acc.invoices[i];
            var lastPaid := acc.sub.hasCard && charge.Returned? && charge.status == Success &&
                            Installments.OthersSettled(acc, i);
            && (if acc.sub.hasCard
                then ChargedOn(acc, post.account, i, inv.amountDue, charge, inv.attemptCount, false, now)
                else FlaggedForCard(acc, post.account, i, now))
            && (post.raised <==> lastPaid && acc.sub.status !in {Active, Completed})
            && (charge.Returned? && charge.status == Success && acc.sub.hasCard ==>
                  post.account.sub.status == (if lastPaid && acc.sub.status == Active then Completed else acc.sub.status))
  {
    hide OpenOrAdvanceDunning, TransitionInvoice, RecordCharge, DunnedBy, Installments.OthersSettled;
    var inv := acc.invoices[i];
    FlaggingOutcome(acc, i, now);
    match charge
    case Raised => RaisedOutcome(acc, i, inv.amountDue, inv.attemptCount, false, now);
    case Returned(status, reason) =>
      if status == Success {
        PaymentOutcome(acc, i, inv.amountDue, charge, inv.attemptCount, false, now);
      } else {
        DeclineOutcome(acc, i, inv.amountDue, charge, inv.attemptCount, false, now);
      }
  }

  lemma RaisedOutcome(acc: Account, i: nat, amount: int, number: nat, isRetry: bool, now: Instant)
    requires i < |acc.invoices|
    ensures ChargedOn(acc, SetInvoice(acc, i, RecordCharge(acc.invoices[i], amount, Raised, number, isRetry, now)),
              i, amount, Raised, number, isRetry, now)
  {}

  // A due retry is charged exactly while the subscription is past due with a card; if
  // not, it is taken off the schedule and nothing else happens. A successful one ends
  // the dunning of its invoice, moves the period on and reactivates the subscription,
  // except that the last outstanding installment raises.
  lemma RetryOutcome(acc: Account, i: nat, charge: Charge, now: Instant)
    requires i < |acc.invoices| && RetryDue(acc.invoices[i], now)
    ensures var post := Retry(acc, i, charge, now);
            var inv := acc.invoices[i];
            if acc.sub.status != PastDue || !acc.sub.hasCard then
              post == Outcome(acc.(invoices := acc.invoices[i := inv.(nextRetryAt := None)]), false)
            else
              && ChargedOn(acc, post.account, i, inv.amountDue, charge, inv.attemptCount, true, now)
              && (charge.Raised? ==> post.raised)
              && (charge.Returned? && charge.status != Success ==> !post.raised)
              && (charge.Returned? && charge.status == Success ==>
                    && (post.raised <==> acc.sub.kind == Installment && Installments.OthersSettled(acc, i))
                    && (if post.raised then post.account.sub.status == PastDue
                        else Recovered(acc.sub, post.account.sub, post.account.invoices[i])))
  {
    hide OpenOrAdvanceDunning, TransitionInvoice, RecordCharge, DunnedBy, Installments.OthersSettled,
      AdvanceBillingPeriod;
    var inv := acc.invoices[i];
    if acc.sub.status == PastDue && acc.sub.hasCard {
      match charge
      case Raised => RaisedOutcome(acc, i, inv.amountDue, inv.attemptCount, true, now);
      case Returned(status, reason) =>
        if status == Success { RetryPays(acc, i, charge, now); }
        else { DeclineOutcome(acc, i, inv.amountDue, charge, inv.attemptCount, true, now); }
    }
  }

  predicate Recovered(before: Subscription, after: Subscription, inv: Invoice) {
    && after.status == Active && inv.nextRetryAt.None? && inv.dunningReason.None?
    && after.plan == before.plan && after.kind == before.kind && after.hasCard == before.hasCard
    && (if before.periodEnd.None? then after.periodStart == before.periodStart && after.periodEnd.None?
        else
          && after.periodStart == before.periodEnd
          && after.periodEnd == Some(AdvanceBillingPeriod(before.periodEnd.value, before.plan.interval,
                                                          before.plan.intervalCount)))
  }

  lemma RetryPays(acc: Account, i: nat, charge: Charge, now: Instant)
    requires i < |acc.invoices| && RetryDue(acc.invoices[i], now)
    requires acc.sub.status == PastDue && acc.sub.hasCard
    requires charge.Returned? && charge.status == Success
    ensures var post := Retry(acc, i, charge, now);
            var inv := acc.invoices[i];
            && ChargedOn(acc, post.account, i, inv.amountDue, charge, inv.attemptCount, true, now)
            && (post.raised <==> acc.sub.kind == Installment && Installments.OthersSettled(acc, i))
            && (if post.raised then post.account.sub.status == PastDue
                else Recovered(acc.sub, post.account.sub, post.account.invoices[i]))
  {
    hide TransitionInvoice, RecordCharge, DunnedBy, Installments.OthersSettled, AdvanceBillingPeriod;
    var inv := acc.invoices[i];
    var charged := SetInvoice(acc, i, RecordCharge(inv, inv.amountDue, charge, inv.attemptCount, true, now));
    PaymentOutcome(acc, i, inv.amountDue, charge, inv.attemptCount, true, now);
    PaymentKeepsTerms(charged, i, now);
  }

  // The lookup of a renewal: no open invoice starts with the period, or exactly this one.
  predicate NoneForPeriod(acc: Account) {
    forall j :: 0 <= j < |acc.invoices| ==> !OpenFrom(acc.invoices[j], acc.sub.periodStart)
  }

  predicate OnlyForPeriod(acc: Account, i: nat) {
    && i < |acc.invoices| && OpenFrom(acc.invoices[i], acc.sub.periodStart)
    && forall j :: 0 <= j < |acc.invoices| && j != i ==> !OpenFrom(acc.invoices[j], acc.sub.periodStart)
  }

  // The account with the invoice that a renewal issues when there is none.
  function Issued(acc: Account): Account {
    acc.(invoices := acc.invoices +
      [Invoice(Open, acc.sub.plan.amount, acc.sub.periodStart, acc.sub.periodEnd, None,
               None, 0, None, None, [], [], [], [], None)])
  }

  // A due renewal uses the open invoice of the period, issues it when there is none, and
  // raises when there are several. With a card on file it makes one call for the price of
  // the plan; the period moves on exactly when that is answered with success.
  lemma RenewOutcome(acc: Account, charge: Charge, now: Instant)
    requires RenewalDue(acc, now)
    ensures var post := Renew(acc, charge, now);
            && (forall i: nat :: OnlyForPeriod(acc, i) ==> RenewedOn(acc, post, i, charge, now))
            && (NoneForPeriod(acc) ==> RenewedOn(Issued(acc), post, |acc.invoices|, charge, now))
            && (!NoneForPeriod(acc) && (forall i: nat :: !OnlyForPeriod(acc, i)) ==> post == Outcome(acc, true))
  {
    hide ChargeRenewal, RenewedOn;
    if NoneForPeriod(acc) {
      NoneMatchNoneFound(acc.invoices, acc.sub.periodStart);
      ChargeRenewalOutcome(Issued(acc), |acc.invoices|, charge, now);
    } else {
      var i: nat :| i < |acc.invoices| && OpenFrom(acc.invoices[i], acc.sub.periodStart);
      OpenForPeriodUnique(acc.invoices, acc.sub.periodStart, i);
      if OnlyForPeriod(acc, i) { ChargeRenewalOutcome(acc, i, charge, now); }
    }
  }

  ghost predicate RenewedOn(a: Account, post: Outcome, i: nat, charge: Charge, now: Instant) {
    && i < |a.invoices| && a.sub.periodEnd.Some?
    && var b := post.account;
       if !a.sub.hasCard then FlaggedForCard(a, b, i, now) && !post.raised && SamePeriod(a.sub, b.sub)
       else
         && ChargedOn(a, b, i, a.sub.plan.amount, charge, 0, false, now)
         && (post.raised <==> charge.Raised?)
         && if charge.Returned? && charge.status == Success then
              && b.sub.status == a.sub.status && b.sub.periodStart == a.sub.periodEnd
              && b.sub.periodEnd ==
                   Some(AdvanceBillingPeriod(a.sub.periodEnd.value, a.sub.plan.interval, a.sub.plan.intervalCount))
            else SamePeriod(a.sub, b.sub)
  }

  predicate SamePeriod(a: Subscription, b: Subscription) {
    a.periodStart == b.periodStart && a.periodEnd == b.periodEnd
  }

  lemma ChargeRenewalOutcome(acc: Account, i: nat, charge: Charge, now: Instant)
    requires i < |acc.invoices| && acc.invoices[i].status == Open
    requires acc.sub.kind == Recurring && acc.sub.periodEnd.Some?
    ensures RenewedOn(acc, ChargeRenewal(acc, i, charge, now), i, charge, now)
  {
    hide OpenOrAdvanceDunning, TransitionInvoice, RecordCharge, DunnedBy, AdvanceBillingPeriod;
    FlaggingOutcome(acc, i, now);
    DunningKeepsTerms(acc, i, Some(InvalidPaymentMethod), now);
    var amount := acc.sub.plan.amount;
    match charge
    case Raised => RaisedOutcome(acc, i, amount, 0, false, now);
    case Returned(status, reason) =>
      if status == Success {
        PaymentOutcome(acc, i, amount, charge, 0, false, now);
      } else {
        DeclineOutcome(acc, i, amount, charge, 0, false, now);
        DunningKeepsTerms(SetInvoice(acc, i, RecordCharge(acc.invoices[i], amount, charge, 0, false, now)),
          i, reason, now);
      }
  }

  // ----------------------------------------------------------------- plan changes

  // d is the number of whole days in a length of time.
  predicate IsWholeDays(d: int, t: int) {
    Days(d) <= t < Days(d + 1)
  }

  // What an allowed plan change bills: the rounded price of the days left on the new
  // plan, less that on the old one, of the whole days of the period; and nothing without
  // a period of at least a day.
  lemma PlanChangeBills(sub: Subscription, newPlan: Plan, now: Instant, total: int, left: int)
    requires sub.plan.currency == newPlan.currency
    requires sub.periodStart.Some? && sub.periodEnd.Some? ==>
               IsWholeDays(total, sub.periodEnd.value - sub.periodStart.value) &&
               IsWholeDays(left, sub.periodEnd.value - now)
    requires sub.periodStart.None? || sub.periodEnd.None? ==> total == 0
    ensures var p := ProrateChange(sub, newPlan, now);
            var days := Proration.ClampedDays(left, total);
            && p.netMinor == p.chargeMinor - p.creditMinor
            && |p.lineItems| == 2
            && p.lineItems[0].amountMinor == -p.creditMinor && p.lineItems[1].amountMinor == p.chargeMinor
            && (if total <= 0 then p.creditMinor == p.chargeMinor == 0
                else
                  && Proration.IsHalfEvenQuotient(p.creditMinor, sub.plan.amount * days, total)
                  && Proration.IsHalfEvenQuotient(p.chargeMinor, newPlan.amount * days, total))
  {
    hide Proration.Prorate, Proration.IsHalfEvenQuotient;
    if sub.periodStart.Some? && sub.periodEnd.Some? {
      assert WholeDays(sub.periodEnd.value - sub.periodStart.value) == total;
      assert WholeDays(sub.periodEnd.value - now) == left;
    }
    Proration.ProrateIsRounded(sub.plan.amount, left, total);
    Proration.ProrateIsRounded(newPlan.amount, left, total);
    Proration.ProrateIsRounded(sub.plan.amount, 0, total);
    Proration.ProrateIsRounded(newPlan.amount, 0, total);
  }

  // The account of an allowed plan change, with its invoice issued and the plan swapped.
  function Swapped(acc: Account, newPlan: Plan, now: Instant): Account
    requires acc.sub.plan.currency == newPlan.currency
  {
    var p := ProrateChange(acc.sub, newPlan, now);
    Account(acc.sub.(plan := newPlan, updatedAt := now),
      acc.invoices + [Invoice(Open, p.netMinor, Some(now), acc.sub.periodEnd, None,
                              None, 0, None, None, p.lineItems, [], [], [], None)])
  }

  // A plan change is refused exactly for a subscription that is not active, its own plan
  // or another currency, and then changes nothing. Otherwise it swaps the plan, keeps the
  // period and issues one invoice: settled without a call when nothing is owed, flagged
  // without a card, and charged its amount otherwise.
  lemma PlanChangeOutcome(acc: Account, newPlan: Plan, charge: Charge, now: Instant)
    ensures var post := ChangePlan(acc, newPlan, charge, now);
            var n := |acc.invoices|;
            if acc.sub.status != Active || newPlan.id == acc.sub.plan.id || newPlan.currency != acc.sub.plan.currency
            then post == Outcome(acc, true)
            else
              var swapped := Swapped(acc, newPlan, now);
              var owed := swapped.invoices[n].amountDue;
              && post.account.sub.plan == newPlan && SamePeriod(acc.sub, post.account.sub)
              && (owed <= 0 || (acc.sub.hasCard && charge.Returned? && charge.status == Success) ==>
                    post.account.sub.status in {Active, Completed})
              && (if owed <= 0 then
                    && OnlyInvoiceChanged(swapped, post.account, n) && !post.raised
                    && post.account.invoices[n].status == Paid && post.account.invoices[n].calls == []
                  else if !acc.sub.hasCard then FlaggedForCard(swapped, post.account, n, now) && !post.raised
                  else ChargedOn(swapped, post.account, n, owed, charge, 0, false, now) &&
                       (post.raised <==> charge.Raised?))
  {
    hide OpenOrAdvanceDunning, TransitionInvoice, RecordCharge, DunnedBy, ProrateChange;
    if PlanChangeAllowed(acc, newPlan) {
      var swapped := Swapped(acc, newPlan, now);
      var n := |acc.invoices|;
      var owed := swapped.invoices[n].amountDue;
      if owed <= 0 {
        FreeChangeSettles(swapped, n, now);
      } else {
        FlaggingOutcome(swapped, n, now);
        DunningKeepsTerms(swapped, n, Some(InvalidPaymentMethod), now);
        var charged := SetInvoice(swapped, n, RecordCharge(swapped.invoices[n], owed, charge, 0, false, now));
        PaymentKeepsTerms(charged, n, now);
        match charge
        case Raised => RaisedOutcome(swapped, n, owed, 0, false, now);
        case Returned(status, reason) =>
          DunningKeepsTerms(charged, n, reason, now);
          if status == Success { PaymentOutcome(swapped, n, owed, charge, 0, false, now); }
          else { DeclineOutcome(swapped, n, owed, charge, 0, false, now); }
      }
    }
  }

  lemma FreeChangeSettles(acc: Account, i: nat, now: Instant)
    requires i < |acc.invoices| && acc.invoices[i].status == Open && acc.sub.status == Active
    ensures var paid := TransitionInvoice(acc, i, Paid, now);
            && !paid.raised && OnlyInvoiceChanged(acc, paid.account, i)
            && paid.account.invoices[i].status == Paid && paid.account.invoices[i].calls == acc.invoices[i].calls
            && paid.account.sub.plan == acc.sub.plan && SamePeriod(acc.sub, paid.account.sub)
            && paid.account.sub.status in {Active, Completed}
  {
    hide TransitionInvoice, Installments.OthersSettled;
    PayingKeepsOthers(acc, i, now);
    PaymentKeepsTerms(acc, i, now);
    Installments.PaymentDecides(acc, i, now);
    SettledRecord(acc.invoices[i], now);
  }

  // ------------------------------------------------------------------- all steps

  // Whatever the step: an answer that is not a success, other than a step-up request, to
  // a call for an invoice of a live subscription is dunned by the book.
  lemma DeclinesAreDunned(acc: Account, step: Step, now: Instant, i: nat)
    requires i < |Next(acc, step, now).invoices|
    requires Next(acc, step, now).invoices[i].calls != CallsBefore(acc, i)
    requires Live(acc.sub)
    ensures var post := Next(acc, step, now);
            && HasCharge(step)
            && (Declined(step.charge) ==>
                  && DunnedBy(InvoiceBefore(acc, i, post.invoices[i]), post.invoices[i], step.charge.reason,
                       post.sub.status, now)
                  && post.invoices[i].status == Open)
  {
    hide Next, RecordCharge, Settled, Dunned, NotePayment, DunnedBy, Exhausts;
    var changed, k, inv, change := StepChange(acc, step, now);
    var post := Next(acc, step, now);
    assert changed && i == k;
    UncalledKeepsCalls(inv, change, now);
    if Declined(step.charge) {
      var charged := RecordCharge(inv, change.amount, step.charge, change.number, change.isRetry, now);
      RecordedCharge(inv, change.amount, step.charge, change.number, change.isRetry, now);
      DunnedByTheBook(charged, step.charge.reason, post.sub.status, now);
      AnchoredAlike(InvoiceBefore(acc, i, post.invoices[i]), charged, post.invoices[i], step.charge.reason,
        post.sub.status, now);
    }
  }

  lemma UncalledKeepsCalls(inv: Invoice, change: Change, now: Instant)
    ensures !IsCharge(change) ==> Apply(inv, change, now).calls == inv.calls
  {}

  predicate Declined(charge: Charge) {
    charge.Returned? && charge.status != Success && charge.reason != Some(RequiresAction)
  }

  function CallsBefore(acc: Account, i: nat): seq<ProviderCall> {
    if i < |acc.invoices| then acc.invoices[i].calls else []
  }

  // The invoice before the step; one that the step issued had not been dunned.
  function InvoiceBefore(acc: Account, i: nat, issued: Invoice): Invoice {
    if i < |acc.invoices| then acc.invoices[i]
    else issued.(dunningReason := None, firstFailureAt := None, nextRetryAt := None)
  }

  // ------------------------------------------------------------ who is charged when

  // Some invoice has more calls than before.
  predicate CallsProvider(acc: Account, post: Account) {
    exists i :: 0 <= i < |post.invoices| && post.invoices[i].calls != CallsBefore(acc, i)
  }

  // A retry is charged exactly when its time has come on an open invoice of a past due
  // subscription with a card, and the call is for that invoice.
  lemma RetryIsChargedIff(acc: Account, i: nat, charge: Charge, now: Instant)
    ensures var post := Next(acc, RetryStep(i, charge), now);
            CallsProvider(acc, post) <==>
            && i < |acc.invoices| && acc.invoices[i].status == Open
            && (exists due :: acc.invoices[i].nextRetryAt == Some(due) && due <= now)
            && acc.sub.status == PastDue && acc.sub.hasCard
  {
    hide Retry, DunnedBy;
    if i < |acc.invoices| && RetryDue(acc.invoices[i], now) {
      assert acc.invoices[i].nextRetryAt == Some(acc.invoices[i].nextRetryAt.value);
      RetryOutcome(acc, i, charge, now);
      var post := Next(acc, RetryStep(i, charge), now);
      assert |post.invoices| == |acc.invoices|;
      assert post.invoices[i].calls != CallsBefore(acc, i) ==> CallsProvider(acc, post);
    }
  }

  // An installment is charged exactly when it is due on an open invoice that is not in
  // dunning, with a card on file.
  lemma InstallmentIsChargedIff(acc: Account, i: nat, charge: Charge, now: Instant)
    ensures var post := Next(acc, InstallmentStep(i, charge), now);
            CallsProvider(acc, post) <==>
            && i < |acc.invoices| && acc.invoices[i].status == Open && acc.invoices[i].nextRetryAt.None?
            && (exists due :: acc.invoices[i].dueDate == Some(due) && due <= now)
            && acc.sub.kind == Installment && acc.sub.hasCard
  {
    hide ChargeInstallment, DunnedBy;
    if i < |acc.invoices| && acc.sub.kind == Installment && InstallmentDue(acc.invoices[i], now) {
      assert acc.invoices[i].dueDate == Some(acc.invoices[i].dueDate.value);
      InstallmentOutcome(acc, i, charge, now);
      var post := Next(acc, InstallmentStep(i, charge), now);
      assert |post.invoices| == |acc.invoices|;
      assert post.invoices[i].calls != CallsBefore(acc, i) ==> CallsProvider(acc, post);
    }
  }

  // A renewal is charged exactly when the period of an active recurring subscription with
  // a card is over and at most one open invoice starts with it.
  lemma RenewalIsChargedIff(acc: Account, charge: Charge, now: Instant)
    ensures var post := Next(acc, RenewStep(charge), now);
            CallsProvider(acc, post) <==>
            && acc.sub.status == Active && acc.sub.kind == Recurring && acc.sub.hasCard
            && (exists end :: acc.sub.periodEnd == Some(end) && end <= now)
            && (NoneForPeriod(acc) || exists i: nat :: OnlyForPeriod(acc, i))
  {
    hide Renew, DunnedBy, OnlyForPeriod, NoneForPeriod;
    var post := Next(acc, RenewStep(charge), now);
    if RenewalDue(acc, now) {
      assert acc.sub.periodEnd == Some(acc.sub.periodEnd.value);
      RenewOutcome(acc, charge, now);
      if i: nat :| OnlyForPeriod(acc, i) {
        assert RenewedOn(acc, Renew(acc, charge, now), i, charge, now);
        assert |post.invoices| == |acc.invoices|;
        assert acc.sub.hasCard ==> post.invoices[i].calls != CallsBefore(acc, i);
      } else if NoneForPeriod(acc) {
        assert RenewedOn(Issued(acc), Renew(acc, charge, now), |acc.invoices|, charge, now);
        assert |post.invoices| == |acc.invoices| + 1;
        assert acc.sub.hasCard ==> post.invoices[|acc.invoices|].calls != CallsBefore(acc, |acc.invoices|);
      }
    }
  }

  // A plan change is charged exactly when it is allowed, something is owed and there is a
  // card.
  lemma PlanChangeIsChargedIff(acc: Account, newPlan: Plan, charge: Charge, now: Instant)
    ensures var post := Next(acc, ChangePlanStep(newPlan, charge), now);
            CallsProvider(acc, post) <==>
            && acc.sub.status == Active && newPlan.id != acc.sub.plan.id
            && newPlan.currency == acc.sub.plan.currency
            && ProrateChange(acc.sub, newPlan, now).netMinor > 0 && acc.sub.hasCard
  {
    hide ChangePlan, DunnedBy, ProrateChange;
    PlanChangeOutcome(acc, newPlan, charge, now);
    var post := Next(acc, ChangePlanStep(newPlan, charge), now);
    var n := |acc.invoices|;
    if |post.invoices| == n + 1 {
      assert forall j :: 0 <= j < n ==> post.invoices[j] == acc.invoices[j];
      assert post.invoices[n].calls != CallsBefore(acc, n) ==> CallsProvider(acc, post);
    }
  }

  // No other step calls the provider.
  lemma OnlyFourPathsCharge(acc: Account, step: Step, now: Instant)
    requires !HasCharge(step)
    ensures !CallsProvider(acc, Next(acc, step, now))
  {
    hide Next, Apply, CallsBefore;
    var changed, k, inv, change := StepChange(acc, step, now);
    UncalledKeepsCalls(inv, change, now);
    forall i | 0 <= i < |Next(acc, step, now).invoices|
      ensures Next(acc, step, now).invoices[i].calls == CallsBefore(acc, i)
    {
      CallsBeforeIs(acc, i);
    }
  }

  lemma CallsBeforeIs(acc: Account, i: nat)
    ensures CallsBefore(acc, i) == if i < |acc.invoices| then acc.invoices[i].calls else []
  {}

  // -------------------------------------------------------------------- milestones

  // The next retry is planned for its milestone exactly.
  ghost predicate OnTime(inv: Invoice) {
    && inv.dunningReason.Some? && inv.firstFailureAt.Some?
    && var offsets, k := Schedule(inv.dunningReason.value), CountRetries(inv.attempts);
       k < |offsets| && inv.nextRetryAt == Some(inv.firstFailureAt.value + Days(offsets[k]))
  }

  lemma FirstFailureIsOnTime(before: Invoice, after: Invoice, reason: Option<FailureReason>,
                             status: SubscriptionStatus, now: Instant)
    requires DunnedBy(before, after, reason, status, now)
    requires before.dunningReason.None? && CountRetries(after.attempts) == 0
    ensures after.nextRetryAt.Some? <==> OnTime(after)
  {}

  lemma DeclinedRetryStaysOnTime(acc: Account, i: nat, charge: Charge)
    requires i < |acc.invoices| && acc.invoices[i].status == Open && OnTime(acc.invoices[i])
    requires acc.sub.status == PastDue && acc.sub.hasCard && Declined(charge)
    ensures var inv := acc.invoices[i];
            var post := Retry(acc, i, charge, inv.nextRetryAt.value).account;
            var offsets, k := Schedule(inv.dunningReason.value), CountRetries(inv.attempts);
            && |post.invoices| == |acc.invoices|
            && var after := post.invoices[i];
               && after.status == Open && post.sub.hasCard
               && after.dunningReason == inv.dunningReason && after.firstFailureAt == inv.firstFailureAt
               && CountRetries(after.attempts) == k + 1
               && after.calls == inv.calls +
                    [ProviderCall(inv.attemptCount, inv.amountDue, charge, true, inv.nextRetryAt.value)]
               && (if k + 1 < |offsets| then OnTime(after) && post.sub.status == PastDue
                   else after.nextRetryAt.None? && post.sub.status == Unpaid)
  {
    hide Retry, CountRetries, HardFailures, ChargeKeys;
    var inv := acc.invoices[i];
    var now := inv.nextRetryAt.value;
    RetryOutcome(acc, i, charge, now);
    CountingAppends(inv.attempts,
      PaymentAttempt(charge.status, charge.reason, ChargeKey(inv.attemptCount), inv.attemptCount, true));
    DeclinedKeepsCard(acc, i, charge, now);
  }

  lemma DeclinedKeepsCard(acc: Account, i: nat, charge: Charge, now: Instant)
    requires i < |acc.invoices| && Declined(charge)
    ensures Retry(acc, i, charge, now).account.sub.hasCard == acc.sub.hasCard
  {
    hide OpenOrAdvanceDunning, RecordCharge;
    var inv := acc.invoices[i];
    DunningKeepsTerms(SetInvoice(acc, i, RecordCharge(inv, inv.amountDue, charge, inv.attemptCount, true, now)), i,
      charge.reason, now);
  }

  // The documented schedule, met exactly: retries that are each made when they are due,
  // and declined, are charged at the first failure plus the offsets of the anchor, one
  // after the other, until the answers or the offsets run out.
  lemma {:induction false} RetriesMeetMilestones(acc: Account, i: nat, answers: seq<Charge>, clock: Instant)
    requires i < |acc.invoices| && acc.invoices[i].status == Open && OnTime(acc.invoices[i])
    requires acc.sub.status == PastDue && acc.sub.hasCard && clock <= acc.invoices[i].nextRetryAt.value
    requires forall a :: a in answers ==> Declined(a)
    ensures var inv := acc.invoices[i];
            var post := Dunning.RetryOnSchedule(acc, i, answers, clock);
            var offsets, k := Schedule(inv.dunningReason.value), CountRetries(inv.attempts);
            var n := if |answers| < |offsets| - k then |answers| else |offsets| - k;
            && i < |post.invoices| && |post.invoices[i].calls| == |inv.calls| + n
            && inv.calls <= post.invoices[i].calls
            && AtMilestones(post.invoices[i].calls, |inv.calls|, inv.firstFailureAt.value, offsets, k)
    decreases |answers|
  {
    hide Retry, CountRetries, Schedule, AtMilestones;
    if answers == [] {
      NoneLate(acc.invoices[i]);
    } else {
      var inv := acc.invoices[i];
      var now := inv.nextRetryAt.value;
      assert answers[0] in answers;
      DeclinedRetryStaysOnTime(acc, i, answers[0]);
      var post := Retry(acc, i, answers[0], now).account;
      var offsets, k := Schedule(inv.dunningReason.value), CountRetries(inv.attempts);
      if k + 1 < |offsets| {
        assert offsets[k] <= offsets[k + 1] by { ScheduleShape(inv.dunningReason); ScheduleIs(inv.dunningReason.value); }
        RetriesMeetMilestones(post, i, answers[1..], now);
      } else {
        assert Dunning.RetryOnSchedule(post, i, answers[1..], now) == post;
        NoneLate(post.invoices[i]);
      }
      OneMoreOnTime(Dunning.RetryOnSchedule(post, i, answers[1..], now).invoices[i].calls, |inv.calls|,
        inv.firstFailureAt.value, offsets, k);
    }
  }

  // The calls from the base-th on were made at the offsets from the k-th on.
  predicate AtMilestones(calls: seq<ProviderCall>, base: nat, first: Instant, offsets: seq<int>, k: nat) {
    && base <= |calls| && |calls| - base <= |offsets| - k
    && forall q :: base <= q < |calls| ==> calls[q].at == first + Days(offsets[k + (q - base)])
  }

  lemma NoneLate(inv: Invoice)
    ensures forall first, offsets: seq<int>, k: nat :: k <= |offsets| ==>
              AtMilestones(inv.calls, |inv.calls|, first, offsets, k)
  {}

  lemma OneMoreOnTime(calls: seq<ProviderCall>, base: nat, first: Instant, offsets: seq<int>, k: nat)
    requires AtMilestones(calls, base + 1, first, offsets, k + 1) && k < |offsets|
    requires base < |calls| && calls[base].at == first + Days(offsets[k])
    ensures AtMilestones(calls, base, first, offsets, k)
  {}

  lemma ScheduleIs(reason: FailureReason)
    ensures Schedule(reason) == GetRetrySchedule(Some(reason))
  {}
}
