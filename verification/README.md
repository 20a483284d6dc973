# Verification of the subscription billing engine

This project models the billing and dunning core of the repository in Dafny and proves
what it keeps over whole runs. A subscription and its invoices are driven by the hourly
renewal worker, the installment worker, the dunning retry worker, the grace timer, plan
changes, inbound payment webhooks, customer pause, resume and cancel, and the jobs
that expire incomplete subscriptions and end trials. Every one of these is a step of one
transition system; the payment provider is an oracle that answers a charge with a status
and a reason, or raises; the clock is an input that does not run backwards.

`dafny verify dfyconfig.toml` checks everything.

| file | contents |
|---|---|
| Prelude.dfy, Calendar.dfy | instants, the Gregorian calendar, clamped month addition, the three interval tables |
| RetryPolicy.dfy, Proration.dfy, Money.dfy | retry schedules, half-even proration and the float division under it, money strings |
| Model.dfy | the rows, the two status tables, row transitions with audit |
| Billing.dfy | what every step does to an account, as functions (`Take`, `Next`, `Run`) |
| Engine.dfy, Workers.dfy | the same steps as the program runs them: records updated field by field, workers that loop over them, proved against Billing.dfy |
| Changes.dfy | each step changes at most one invoice, in one of eight ways, and dunns a decline exactly when the source does |
| Outcomes.dfy | what each charging path leaves behind for each answer of the provider, and who is charged when |
| Dunning.dfy, Grace.dfy, Charging.dfy, Tiling.dfy, Lifecycle.dfy, Installments.dfy, Webhooks.dfy | the theorems about runs |
| Reconciliation.dfy, TokenProtocol.dfy, PlanStatistics.dfy | two-way matching with paging, the shared access token, the aggregate queries |

An account is a subscription with its invoices. Rows that refer to one invoice (attempts,
line items, audit rows) are kept inside it, in the order they were written. Two fields of
an invoice are history that the database does not store: `calls` lists every call made to
the provider, including those that raised, and `firstFailureAt` is when the reason that
anchors the dunning cycle was recorded. No step reads them.

## Where the code does not do what its documentation says

The code was followed. Each entry names the members that show the inputs for which the two
part and the condition under which they agree.

- A declined retry is documented to wait for the next milestone. One answered by a step-up
  request stays due and is charged again at once (`Dunning.DeclinedRetryDueAgainIff`,
  `Dunning.StepUpRepeatsAtOnce`); milestones therefore count the other declines only
  (`Dunning.RetriesAreTimed`).
- The module comment of the dunning worker says that a retried call can never double-charge
  (app/dunning/worker.py:6-9). That holds for a provider whose answers other than success
  are final (`Charging.CapturedAtMostOnce`). Otherwise an invoice can be captured twice
  exactly when a call was answered with anything but success and another one followed
  (`Charging.CapturableTwiceIff`), as after a `pending` answer
  (`Charging.PendingIsChargedAgain`).
- The first renewal bills the period that the checkout has just paid for, so a subscription
  pays one amount more than the periods it leaves behind
  (`Tiling.ActivatedSubscriptionTiles`, `Tiling.CheckoutOverlapsFirstRenewalIff`).
- Recovery from dunning always advances the billing period, also when the recovered invoice
  was a proration invoice, so a period can go unbilled (`Tiling.RecoveryPaysForPeriodIff`,
  `Tiling.RecoveredUpgradeSkipsPeriod`).
- The renewal worker charges the price of the current plan and not what the invoice bills.
  The two agree in every run without a plan change (`Charging.ChargesMatchBills`), and can
  part after a resume from `past_due` (`Charging.ResumedPlanChangeMischarges`).
- A payment reported by webhook for a past due subscription restarts the period at that
  instant (`Tiling.WebhookRecoveryContinuesIff`).
- The grace worker asks for `defaulted` on installment subscriptions; no edge enters that
  status (`Lifecycle.DefaultedIsUnreachable`, `Lifecycle.GraceRevokesIff`).
- Paying the last installment completes a subscription only from `active`. From any other
  status the payment is committed, the completion raises, and no later run without a plan
  change completes the subscription (`Installments.LastInstallmentCompletesIff`,
  `Installments.StrandedNeverCompletes`). A plan of one installment always ends this way
  when it is paid at checkout (`Installments.PlanPaidOnTimeCompletesIff`).
- A webhook whose handler raises is not recorded and is processed again on redelivery. That
  changes something exactly for the last outstanding installment of a subscription that is
  not active (`Webhooks.HandlerRaisesIff`, `Webhooks.RedeliveryChangesNothingIff`,
  `Webhooks.RaisingHandlerRunsTwice`).
- Repeated advances are not one long advance, and timestamps can change their order under
  clamping; both have their exact condition (`Calendar.IteratedAgainstOneShot`,
  `Calendar.AdvanceKeepsOrderIff`).
- A late failure webhook is not checked against the payment of the invoice
  (`Dunning.LateDeclineHitsPaidInvoices`).
- A token without an expiry gets 300 seconds "so we re-authenticate"; with the default
  leeway of 300 it is never fresh at all (`TokenProtocol.FallbackTokenIsFreshIff`).
- A provider outage is logged as "skipping run", but the run continues and reports every
  attempt that has a reference as missing (`Reconciliation.OutageReportsEveryAttempt`).

## Model

| member | source | states |
|---|---|---|
| Dunning.RetriesAreTimed | app/dunning/service.py:96-131 | in every run with a monotone clock, the retry after f hard-failed retries happens no earlier than first failure + schedule(anchor)[f] days; f equals the number of retries when none was answered by a step-up request |
| Dunning.RetriesAreBounded | app/dunning/service.py:96-184 | in every run an open invoice has at most as many hard-failed retries as its anchor's schedule has offsets (never over three); the anchor is never `requires_action`; a reason that needs a new card is neither retried nor scheduled |
| Dunning.AnchorNeverChanges | app/dunning/service.py:96-99 | the reason and instant that opened a cycle stay the same for as long as the invoice is open, in any run |
| Dunning.ReachableDunning | app/dunning/service.py:56-191 | the invariant behind the three theorems above holds in every reachable state |
| Dunning.DeclinedRetryDueAgainIff | app/dunning/worker.py:114-168 | a declined retry is due again at the same instant if and only if the answer was `requires_action` |
| Dunning.StepUpRepeatsAtOnce | app/dunning/service.py:77-80 | two retries of one invoice can be charged at the same instant after a step-up answer |
| Dunning.RetryMakesProgress | app/dunning/worker.py:104-168 | an answered retry collects the invoice, or uses up one hard failure and then either lies strictly in the future or takes access away |
| Dunning.RetriesTerminate | app/dunning/worker.py:71-168 | schedule length minus hard failures is a termination measure: that many answered retries end in a paid invoice or in `unpaid` |
| Dunning.RevocationOnlyAfterExhaustion | app/dunning/service.py:151-184 | in every run, a step into `unpaid` dunned one invoice, and that invoice has at least one retry and at least as many retries as its schedule is long, and does not wait for a new card |
| Dunning.LateDeclineHitsPaidInvoices | app/webhooks/service.py:246-253 | whatever the status of the invoice, a failure webhook leaves the status of the subscription alone if and only if that is not `active`, and not `past_due` with the recorded retries covering a non-empty schedule; it revokes access exactly in the dunned statuses with the schedule covered |
| Changes.DunningOutcome | app/dunning/service.py:78-184 | what a dunning step leaves of the invoice, and that it revokes access exactly when no retry is left and the invoice is not merely waiting for a new card |
| Changes.StepChange | app/dunning/worker.py:71-168 | every step of the engine changes at most one invoice, in one of eight ways each with its guard and matching the provider's answer; a decline is dunned exactly when the subscription is live and the answer was no step-up request, and dunning alone decides between `past_due` and `unpaid` |
| Outcomes.DeclinesAreDunned | app/dunning/service.py:77-184 | whatever the charging path: an answer that is neither a success nor a step-up request, for an invoice of an active or past due subscription, anchors the cycle, plans the next retry at the gap between the offsets of the anchor, and leaves the subscription `past_due` while an offset is left or a never retried invoice waits for a card, else `unpaid` |
| Outcomes.DunnedByTheBook | app/dunning/service.py:96-184 | the same of a dunning step, stated on the cumulative schedule; bill, payment and calls stay as they are |
| Outcomes.InstallmentOutcome | app/worker/installments.py:50-114 | a due installment is flagged without a card, and else charged once for its amount: paid, dunned or left alone by the answer; the row raises exactly when it pays the last invoice of a subscription that is no longer active |
| Outcomes.RetryOutcome | app/dunning/worker.py:71-168 | a due retry outside `past_due` or without a card is only taken off the schedule; otherwise it is charged once, and a success ends the dunning, moves the period on and reactivates, except for the last installment |
| Outcomes.RenewOutcome | app/worker/billing_cycle.py:67-151 | a due renewal uses the open invoice of the period, issues it when there is none, raises when there are several; it is flagged without a card, and else charged once for the plan price; the period moves on exactly on success |
| Outcomes.PlanChangeOutcome | app/subscriptions/service.py:296-414 | a plan change is refused exactly outside `active`, for the own plan or another currency; otherwise the plan is swapped, the period kept and one invoice issued, settled without a call when nothing is owed, flagged without a card, else charged once |
| Outcomes.PlanChangeBills | app/subscriptions/service.py:315-341 | that invoice bills the half-even price of the whole days left, of the whole days of the period, on the new plan less that on the old one, as two signed line items |
| Outcomes.PaymentOutcome | app/invoices/state_machine.py:60-136 | an answered success pays the invoice at that instant, and completes or raises exactly as the last installment does |
| Outcomes.RetryIsChargedIff | app/dunning/worker.py:53-102 | a retry calls the provider exactly for an open invoice whose time has come, of a past due subscription with a card |
| Outcomes.InstallmentIsChargedIff | app/worker/installments.py:28-66 | an installment row calls it exactly for a due open invoice that is not in dunning, with a card |
| Outcomes.RenewalIsChargedIff | app/worker/billing_cycle.py:35-104 | a renewal calls it exactly when the period of an active recurring subscription with a card is over and at most one open invoice starts with it |
| Outcomes.PlanChangeIsChargedIff | app/subscriptions/service.py:299-378 | a plan change calls it exactly when it is allowed, something is owed and there is a card |
| Outcomes.OnlyFourPathsCharge | app/webhooks/service.py:97-108 | no other step calls the provider |
| Outcomes.RetriesMeetMilestones | app/dunning/policy.py:8-12 | retries that are each made when due, and declined, are charged exactly at the first failure plus the offsets of the anchor, until answers or offsets run out |
| Outcomes.FirstFailureIsOnTime | app/dunning/service.py:96-131 | the first failure plans its retry, if any, at the first offset |
| RetryPolicy.GapsTelescope | app/dunning/policy.py:52-66 | the incremental gaps add up to the cumulative offsets for every reason, and stop where the schedule does |
| RetryPolicy.GapsNeverShrink | app/dunning/policy.py:20-34 | gaps are at least a day and never shrink, which is what makes a later failure push the date only later |
| RetryPolicy.NotRetryableIffHard | app/dunning/policy.py:69-77 | among the reasons that open a cycle, those with no retry are exactly those that need a new payment method |
| Charging.KeyDiscipline | app/worker/billing_cycle.py:106-132 | in any interleaving of the four charging paths the recorded charges of an invoice carry keys 0, 1, 2, ..., `attempt_count` is their number, a call that raised is repeated under the same key, and a success is the last call and means paid |
| Charging.OnlyOpenInvoicesAreCharged | app/dunning/worker.py:53-57 | no step calls the provider for an invoice that is not open, none calls it twice, and calls are only appended |
| Charging.CapturedAtMostOnce | app/dunning/worker.py:104-130 | with a provider that is idempotent per key and whose refusals are final, no invoice is captured twice, in any run |
| Charging.CapturableTwiceIff | app/dunning/worker.py:104-130 | in any run, a provider that only honours keys can capture an invoice twice if and only if one of its calls was answered with anything but success and another call followed |
| Charging.FirstOfTwoIsRefused | app/dunning/worker.py:104-127 | of two captures of one invoice the first was answered, and not with success |
| Charging.PendingIsChargedAgain | app/dunning/worker.py:114-168 | a retry answered `pending` is followed by another exactly when the anchor's schedule has an offset left; that one asks for the same amount under another key, and a provider that honours keys may capture both |
| Charging.BillsAddUp | app/subscriptions/service.py:332-353 | in every run an invoice with line items bills exactly their signed sum |
| Charging.ChargesMatchBills | app/worker/billing_cycle.py:108-116 | in every run without a plan change, every call of all four charging paths asks for exactly what its invoice bills |
| Charging.RenewalChargesAsBilledIff | app/worker/billing_cycle.py:79-116 | a renewal that reuses an open invoice charges what it bills if and only if that is the price of the current plan |
| Charging.ResumedPlanChangeMischarges | app/worker/billing_cycle.py:108-116 | after a declined renewal, a resume and a plan change, the next renewal collects the new plan's price on the invoice that bills the old one |
| Charging.StepKeepsPlan | app/subscriptions/service.py:350 | only a plan change changes the plan of a subscription |
| Tiling.PeriodsTile | app/worker/billing_cycle.py:70-151 | in every run of renewals, retries, reported declines, grace, pause, resume and cancel: the invoices cover consecutive periods at the plan amount, the first m are paid once each, at most one is open and is for the current period, and the successful charges total m times the plan amount |
| Tiling.ActivatedSubscriptionTiles | app/webhooks/service.py:113-127 | from the checkout payment at t on, the checkout invoice stays paid with its terms, the renewal invoices of every such run cover the iterated intervals counted from t, renewals collect m amounts for the m periods left behind, and m + 1 amounts are paid altogether |
| Tiling.CheckoutOverlapsFirstRenewalIff | app/subscriptions/service.py:181-230 | the checkout invoice and the first renewal invoice bill a common instant if and only if the subscription was activated before the interval from its creation was over |
| Tiling.ReportedDeclineKeepsTiling | app/webhooks/service.py:246-253 | a reported decline, for whichever invoice, keeps the tiling |
| Tiling.PaidStaysPaid | app/invoices/state_machine.py:33-40 | in every run paid invoices stay paid and no invoice changes its period or amount |
| Tiling.PaymentActivates | app/webhooks/service.py:113-127 | a payment reported for an incomplete or past due subscription pays the invoice, clears its dunning, activates the subscription, starts a period at that instant and touches no other invoice |
| Tiling.RenewKeepsTiling | app/worker/billing_cycle.py:69-151 | one renewal reuses the open invoice of the period or issues one, keeps the tiling, and on success moves one period on |
| Tiling.RetryKeepsTiling | app/dunning/worker.py:71-168 | one dunning retry keeps the tiling |
| Tiling.BoundariesIncrease | app/worker/billing_cycle.py:134-137 | with a positive count the periods are disjoint and in order |
| Tiling.RenewalsCatchUp | app/worker/billing_cycle.py:131-137 | finitely many successful renewals, at most one a day behind, bring an overdue subscription past any instant |
| Tiling.RecoveryPaysForPeriodIff | app/dunning/worker.py:129-145 | a recovery pays for the period it leaves behind if and only if the invoice was for the current period: the outcome of a recovery, read on the state before it |
| Tiling.RecoveredUpgradeSkipsPeriod | app/dunning/worker.py:133-138 | a failed upgrade charge recovered by a retry moves past a period for which no invoice exists |
| Tiling.RecoveryAdvances | app/dunning/worker.py:129-145 | a successful retry pays its invoice, clears its dunning, reactivates the subscription and starts the next period at the end of the last |
| Tiling.WebhookRecoveryContinuesIff | app/webhooks/service.py:117-127 | a recovery by webhook restarts the period at the time of the report, so it continues the paid period if and only if the report arrives at its very end |
| Billing.OpenForPeriodUnique | app/worker/billing_cycle.py:69-79 | the lookup of the existing invoice finds the one match, or notices that there are several |
| Lifecycle.AuditReplaysRun | app/subscriptions/state_machine.py:63-97 | over every run the audit rows of the subscription and of each invoice are a connected path of allowed edges that replays to the current status; `canceled_at` and `paid_at` are set once, to the instant of the row that records the status |
| Lifecycle.StepFollows | app/invoices/state_machine.py:47-80 | each single step extends the audit trails this way, invoices issued by the step included |
| Lifecycle.RequestFollows | app/subscriptions/state_machine.py:63-97 | a status request is refused exactly when the table has no such edge, and otherwise extends the trail by a row that replays |
| Lifecycle.InvoiceRequestFollows | app/invoices/state_machine.py:43-80 | the same for invoices |
| Lifecycle.ReplayInTwoParts | app/subscriptions/state_machine.py:84-93 | replaying a trail equals replaying a prefix and then the rest |
| Lifecycle.TerminalAbsorbs | app/subscriptions/state_machine.py:51-55 | no run moves a subscription or an invoice out of a terminal status or writes another audit row for it |
| Lifecycle.InvoiceMovesOnePhase | app/invoices/state_machine.py:33-44 | an invoice moves exactly from draft to open and from open to one of the three settled statuses, which no edge leaves |
| Lifecycle.TerminalIffNoEdge | app/subscriptions/state_machine.py:44-56 | the terminal statuses are exactly those that no edge leaves |
| Lifecycle.DefaultedIsUnreachable | app/subscriptions/state_machine.py:44-56 | no run enters `defaulted` |
| Lifecycle.GraceRevokesIff | app/dunning/worker.py:171-209 | an expired grace period cancels the subscription, except that it raises and changes nothing exactly for installments |
| Grace.GraceWaits | app/dunning/worker.py:174-179 | after a step at t takes a subscription to `unpaid`, whatever happens in between, a grace step before t + 14 days does nothing to it |
| Grace.GraceCancelsIff | app/dunning/worker.py:171-198 | a recurring subscription that became `unpaid` at t and that nobody resumes, cancels or links a card to is canceled after a grace step exactly when that comes at t + 14 days or later |
| Grace.StepStamps | app/subscriptions/models.py:58 | every change of a subscription's row, but a card that appears or goes away on its own, is stamped with its instant |
| Grace.MovesHaveTriggers | app/subscriptions/state_machine.py:10-26 | every change of status in any step has the trigger that the table names for its edge, or is a resume |
| Grace.CommandOutcome | app/subscriptions/service.py:256-281 | pause, resume, cancel, expiry and the end of a trial move a subscription exactly from the statuses with such an edge, change nothing otherwise (the requests of the customer then raise), and never touch an invoice; a trial that ends with a card starts a period |
| Installments.InstallmentPlanShape | app/subscriptions/service.py:181-233 | the creation loop issues exactly count open invoices of the plan amount, the i-th due one advance of i times the interval after creation and ending one of i + 1 times after it; the first is due at once, due dates strictly increase, periods are contiguous |
| Installments.CreatedIsFresh | app/subscriptions/service.py:221-230 | what the creation loop issues is a start state of every theorem about runs |
| Installments.CreationCases | app/subscriptions/service.py:122-154 | a subscription starts active by bank transfer, trialing when a trial is asked for or offered, else incomplete; a trial is its period and lasts the days of the plan or 14 |
| Installments.PaymentDecides | app/invoices/state_machine.py:107-136 | the exact cases in which paying an open invoice completes the subscription, and in which it raises |
| Installments.BankTransferIsNeverBilled | app/subscriptions/service.py:130-131 | a bank transfer subscription is active from the start, and no run without a plan change ever bills it |
| Installments.PlanPaidOnTimeCompletesIff | app/worker/installments.py:19-104 | a plan whose first invoice is paid at a checkout that leaves a card, and whose others are collected at or after their due dates, ends with every invoice paid, each of the others by one charge, and completed if and only if it has at least two installments |
| Installments.LastInstallmentCompletesIff | app/invoices/state_machine.py:107-136 | paying the last outstanding invoice always collects it, completes the subscription exactly from `active`, and raises otherwise |
| Installments.EarlierInstallmentNeverCompletes | app/invoices/state_machine.py:116-123 | while another invoice is outstanding, payment neither completes nor raises |
| Installments.CompletedHasNothingOutstanding | app/invoices/state_machine.py:115-130 | in every run `completed` implies that no draft or open invoice remains |
| Installments.StrandedNeverCompletes | app/subscriptions/state_machine.py:44-56 | once the last invoice was collected outside `active`, no run without a plan change completes the subscription |
| Installments.LastInstallmentByRetryStrands | app/dunning/worker.py:129-145 | collecting the last installment by a retry leaves the subscription `past_due` with everything paid |
| Installments.OnlyBillingIssues | app/worker/billing_cycle.py:81-91 | only renewals and plan changes of active subscriptions issue invoices |
| Webhooks.Deduplicates | app/webhooks/service.py:28-33 | if equal ids carry equal payloads and no delivery strands an installment plan, processing a list of deliveries equals processing the first delivery of each id, unresolved references and deliveries that raise on an unpayable invoice included |
| Webhooks.RaisingNothingStrandsNothing | app/webhooks/service.py:254-264 | a list on which no handler raises meets that condition |
| Webhooks.RedeliveryChangesNothingIff | app/webhooks/service.py:254-264 | in any database, a second delivery of an event changes nothing if and only if the first was not a new report of the last outstanding installment of a subscription that is not active |
| Webhooks.ProcessedIsSettled | app/webhooks/service.py:257-264 | what was delivered is recorded, still does not resolve, or reports an invoice that cannot be paid; if it did not raise, one of the first two |
| Webhooks.HandlerRaisesIff | app/webhooks/service.py:110-127 | the handler raises exactly for a success report on an unpayable invoice or on the last outstanding installment of a subscription that is not active |
| Webhooks.DeliveryOutcome | app/webhooks/service.py:41-264 | a new event touches only the account of the invoice it names: a failure report adds one failed attempt with its id and is dunned as a declined card; a success report adds one successful attempt and leaves the invoice paid, its dunning ended and an incomplete or past due subscription active for a new period, unless the invoice is unpayable or the completion raises; the id is recorded exactly when nothing raises |
| Webhooks.NothingToDeliver | app/webhooks/service.py:28-72 | a known event, or one that names no invoice, changes nothing |
| Webhooks.SuccessRaisesIff | app/webhooks/service.py:113-127 | the same condition for the success branch itself |
| Webhooks.RaisingHandlerRunsTwice | app/webhooks/service.py:257-264 | in exactly that case, in any database: the first delivery commits the payment and raises, the second records the payment again and activates an incomplete or past due subscription, with nothing left to collect |
| Calendar.IteratedAgainstOneShot | app/worker/utils.py:11-22 | n repeated advances land in the year and month of one n-fold addition, at the same time of day, on a day no later; the two are equal if and only if the interval counts days or the day of the latter exists in every month visited, as it does for days up to 28 |
| Calendar.DayNeverRecovers | app/worker/utils.py:11-22 | a later renewal never falls on a later day of the month than an earlier one |
| Calendar.IntervalTablesAgree | app/subscriptions/service.py:48-64 | the three interval tables of the source agree on every interval |
| Calendar.AdvanceMakesProgress | app/worker/utils.py:5-23 | for a positive count the next period end is at least a day later |
| Calendar.AdvanceMonotoneOnDates | app/worker/utils.py:5-23 | advancing preserves the order of calendar dates |
| Calendar.AdvanceKeepsOrderIff | app/worker/utils.py:5-23 | the order of two timestamps is kept if and only if the interval counts days, or they are not two days of one month that are both cut to the last day of the target month with the later one earlier in its day |
| Calendar.AdvanceNotMonotoneOnInstants | app/worker/utils.py:5-23 | an instance in which the order of timestamps is reversed |
| Calendar.ClampingSticks | app/worker/utils.py:15-16 | an instance: two monthly advances from 31 January end on 28 March, one of two months on 31 March |
| Calendar.OverdueCatchesUp | app/worker/billing_cycle.py:134-136 | finitely many advances pass any instant |
| Calendar.ScheduleIncreasing | app/subscriptions/service.py:185-219 | the due dates of the creation loop strictly increase |
| Calendar.OrdinalOrder | app/worker/utils.py:11-22 | day numbers order valid dates as the calendar does |
| Calendar.OrdinalOfFromOrdinal | app/worker/utils.py:11-22 | every day number names a valid date and is recovered from it |
| Calendar.FromOrdinalOfOrdinal | app/worker/utils.py:11-22 | every valid date is recovered from its day number |
| Calendar.MonthsInClosedForm | app/worker/utils.py:11-22 | the lengths of the months follow the closed form of the Gregorian calendar |
| Proration.RoundHalfEvenCorrect | app/proration/calculator.py:51 | the rounding is a nearest integer, and the even one on a tie |
| Proration.HalfEvenUnique | app/proration/calculator.py:51 | there is only one such integer |
| Proration.ProrateIsRounded | app/proration/calculator.py:42-51 | the prorated amount is the half-even quotient of the amount times the clamped days by the days of the cycle, and nothing without a cycle |
| Proration.DoubleDivisionRoundsExactly | app/proration/calculator.py:51 | for products below 2^52, rounding the stored double quotient gives the half-even rounding of the exact one |
| Proration.ProrateBounds | app/proration/calculator.py:48-51 | the rounded amount lies in [0, amount], and at the clamped ends is nothing or everything |
| Proration.ProrateMonotoneInDays | app/proration/calculator.py:42-51 | monotone in the days remaining |
| Proration.ProrateMonotoneInAmount | app/proration/calculator.py:42-51 | monotone in the amount |
| Proration.ProrateSplit | app/proration/calculator.py:42-51 | the halves of a split cycle add up to the amount if and only if the split is no tie or the amount is even, and miss it by at most one otherwise |
| Proration.LineItemsAddUp | app/proration/calculator.py:69-90 | the two line items add up to the net, for all plans |
| Proration.ProrationAddsUp | app/proration/calculator.py:54-90 | refused exactly across currencies; credit and charge are the half-even quotients of the two plans, within their amounts, and the line items carry them with their signs and add up to the net; a dearer plan never nets negative, a cheaper one never positive |
| Proration.ChainTelescopes | app/proration/calculator.py:69-71 | over any chain of plans at one instant the nets add up to the net from first to last; a round trip nets nothing |
| Money.MoneyRoundTrip | app/providers/nomba.py:48-62 | an amount can be printed exactly when it has at most 28 digits, and then both parsers read it back |
| Money.PrintingIsInjective | app/providers/nomba.py:48-52 | distinct amounts are printed differently |
| Money.ParsersAgreeIff | app/reconciliation/service.py:229-235 | on any numeral the rounding and the truncating parser agree exactly when the left-over fraction rounds down |
| Reconciliation.IndexByReference | app/reconciliation/service.py:63-67 | the index holds exactly the non-empty references, each with the last attempt that carries it |
| Reconciliation.MatchOne | app/reconciliation/service.py:73-105 | what one transaction contributes to the report |
| Reconciliation.MatchTransactions | app/reconciliation/service.py:69-105 | the forward pass reports every transaction and collects exactly the matched references |
| Reconciliation.Classify | app/reconciliation/service.py:63-114 | forward and reverse pass together produce the report, in order |
| Reconciliation.ExactClassification | app/reconciliation/service.py:63-114 | missing-in-ours iff no attempt carries the reference, missing-in-nomba iff no transaction does, never both for one reference, at most one mismatch per transaction, duplicates included |
| Reconciliation.ContributesIff | app/reconciliation/service.py:73-105 | a transaction contributes a row exactly when it is unmatched or disagrees, and it is never both |
| Reconciliation.MismatchKinds | app/reconciliation/service.py:92-105 | a matched transaction is reported for its amount exactly when both amounts are known and differ, and for its status exactly when they do not and the translated status is known and differs |
| Reconciliation.ReferenceIsFirstField | app/reconciliation/service.py:74-81 | the reference of a transaction is the first of four fields that is not empty |
| Reconciliation.FlattenCounts | app/reconciliation/service.py:120-128 | the number of rows is the number of records that contributed one |
| Reconciliation.SummaryCounts | app/reconciliation/service.py:120-128 | the discrepancy count of the summary is the number of unmatched transactions, of transactions that disagree with their attempt, and of unmatched attempts together |
| Reconciliation.ReportIsUnique | app/reconciliation/service.py:63-114 | the report is determined by the two lists |
| Reconciliation.OutageReportsEveryAttempt | app/reconciliation/service.py:159-161 | on a provider error every attempt with a reference is reported |
| Reconciliation.FetchAll | app/reconciliation/service.py:137-163 | paging stops at the first short or empty page, error, or when enough rows arrived, and returns exactly the rows before that, cut to the maximum |
| Reconciliation.RerunIsIdempotent | app/reconciliation/service.py:33-38 | running a window again over the same data leaves the table as it was |
| Reconciliation.DiscrepancyTable.Run | app/reconciliation/service.py:22-128 | the rows of other runs are kept, those of this run replaced by its report, and the summary counts it |
| TokenProtocol.TokenProtocolIsSafe | app/providers/nomba.py:120-149 | in every interleaving no caller leaves without a token, at most one fetches, and successful fetches number at most 1 + invalidations + tokens not fresh on arrival |
| TokenProtocol.LongLivedTokensAreNotStale | app/providers/nomba.py:114-149 | if fetched tokens outlive the leeway, fetches number at most 1 + invalidations |
| TokenProtocol.LockIsNeverLost | app/providers/nomba.py:120-128 | no interleaving loses the lock: a waiter can take it or its holder can release it |
| TokenProtocol.RejectedTokenIsReplaced | app/providers/nomba.py:221-228 | the first 401 drops the stored token, and in every interleaving the second attempt of that coroutine carries a token fetched after the rejection |
| TokenProtocol.OneRefreshPerRequest | app/providers/nomba.py:212-228 | in every interleaving a coroutine drops the shared token at most once for each request it starts |
| TokenProtocol.EndsAreFinal | app/providers/nomba.py:221-228 | a second 401, an answer or a failed fetch ends the request, leaves the stored token alone and holds no lock |
| TokenProtocol.TokenLifetime | app/providers/nomba.py:114-118 | a fetched token is used until its expiry less the leeway and no longer |
| TokenProtocol.NextKeepsInvariant | app/providers/nomba.py:114-228 | every step between two awaits keeps the lock and counting invariant |
| TokenProtocol.FallbackTokenIsFreshIff | app/providers/nomba.py:151-166 | a token without an expiry is usable exactly when the leeway is below 300 seconds |
| TokenProtocol.TokenCache.IsFresh | app/providers/nomba.py:114-118 | the freshness check of the object is that of the protocol |
| TokenProtocol.TokenCache.TryToken | app/providers/nomba.py:120-123 | the first check, up to the lock |
| TokenProtocol.TokenCache.EnterLock | app/providers/nomba.py:123-127 | the second check, under the lock |
| TokenProtocol.TokenCache.StoreToken | app/providers/nomba.py:144-149 | the end of a fetch |
| TokenProtocol.TokenCache.Invalidate | app/providers/nomba.py:223-226 | the handler of the first 401 drops the token, as in the protocol step |
| PlanStatistics.PlanQueriesAgree | app/plans/service.py:31-82 | the grouped double outer join counts the subscriptions as the separate query does if and only if they all belong to the tenant, and then the revenue agrees too |
| PlanStatistics.OneMoreInvoiceInStats | app/plans/service.py:36-50 | one more invoice adds its amount to the revenue of a plan exactly when it is paid and of a subscription of the plan, and never changes the count |
| PlanStatistics.GroupingIsExact | app/analytics/service.py:72-93 | grouping gives one row per day with a payment, in order, each the sum of its day |
| PlanStatistics.ChartAddsUpToVolume | app/analytics/service.py:51-93 | the rows of the revenue chart add up to the total volume |
| PlanStatistics.OneMoreInvoiceInVolume | app/analytics/service.py:56-67 | one more invoice adds its amount to the volume exactly when it is paid, of the tenant and the mode, paid since the date and of a plan of the project |
| PlanStatistics.OneMoreInvoiceInChart | app/analytics/service.py:72-93 | in the chart it adds it to the row of the day on which it was paid and to no other |
| Engine.AccountRecord.Create | app/subscriptions/service.py:122-233 | a bank transfer starts active and a trial starts with the trial as its period, both without invoices; any other subscription starts incomplete with one invoice, or one per installment |
| Engine.AccountRecord.IssueInvoices | app/subscriptions/service.py:181-233 | the creation loop issues the scheduled invoices |
| Engine.AccountRecord.RequestStatus | app/subscriptions/state_machine.py:63-97 | the method performs the subscription transition, stamping the row, or raises without a change |
| Engine.AccountRecord.RequestInvoiceStatus | app/invoices/state_machine.py:47-138 | the method performs the invoice transition with its completion cascade |
| Engine.AccountRecord.HasOutstanding | app/invoices/state_machine.py:116-123 | the query finds a draft or open invoice iff there is one |
| Engine.AccountRecord.AdvanceDunning | app/dunning/service.py:56-191 | the method performs the dunning step |
| Engine.AccountRecord.Charge | app/dunning/worker.py:104-127 | a call that returns is recorded and counted, one that raises is neither |
| Engine.AccountRecord.RenewDue | app/worker/billing_cycle.py:46-156 | the loop body performs one renewal |
| Engine.AccountRecord.ChargeForPeriod | app/worker/billing_cycle.py:93-151 | charging the invoice of the period, with its three outcomes |
| Engine.AccountRecord.RetryInvoice | app/dunning/worker.py:71-168 | the method performs one retry |
| Engine.AccountRecord.ChargeInstallmentRow | app/worker/installments.py:50-114 | the loop body charges one installment, and hands a decline or a missing card to dunning |
| Engine.AccountRecord.ChangePlanTo | app/subscriptions/service.py:283-414 | the method performs a plan change or refuses it |
| Engine.AccountRecord.SettleByWebhook | app/webhooks/service.py:113-133 | the success branch, with the rollback of an attempt that was only staged |
| Engine.AccountRecord.DeclineByWebhook | app/webhooks/service.py:246-253 | the failure branch |
| Engine.RetriesOf | app/dunning/service.py:34-45 | the count of the retry attempts |
| Workers.SelectsExactly | app/dunning/worker.py:53-58 | a worker's row selection yields exactly the wanted rows, in order and once each |
| Workers.DueRetriesAreTaken | app/dunning/worker.py:53-68 | the retry worker takes exactly the open invoices due at its start: each is charged or taken off the schedule, the first one of a past due subscription with a card is charged |
| Workers.DueInstallmentsAreCharged | app/worker/installments.py:28-112 | unless an exception leaves it, the installment worker charges exactly the open, due, not dunned invoices of an active plan with a card |
| Workers.BillingDatabase.ProcessBillingCycle | app/worker/billing_cycle.py:24-156 | the worker takes one renewal step of every account |
| Workers.BillingDatabase.ProcessUnpaidGrace | app/dunning/worker.py:171-209 | the worker takes one grace step of every account, so the theorems about the timer are about it |
| Workers.BillingDatabase.ProcessDunningRetries | app/dunning/worker.py:46-68 | the worker runs, on every account, the retry steps of the invoices due at its start |
| Workers.RetryRunSoFar | app/dunning/worker.py:53-68 | rows the retry worker has not reached are as they were selected, so each is still due at its turn |
| Workers.BillingDatabase.ProcessDueInstallments | app/worker/installments.py:19-116 | the worker charges the rows due at its start, up to the first exception that is not the provider's, behind which nothing is touched |
| Workers.InstallmentWorkerIsRun | app/worker/installments.py:43-114 | what the installment worker does to an account is a run of installment steps, so the theorems about runs cover it |
| Workers.BillingDatabase.ProcessNombaWebhook | app/webhooks/service.py:27-264 | the endpoint performs one delivery on the database, so the theorems about deliveries are about it |

## Left out

- HTTP routers, API schemas, authentication, e-mail, templates, the customer portal with its PIN and slug, and `verify_checkout`.
- Outbound webhook events, Redis and job scheduling.
- Card metadata and card saving in the webhook handler: cards appear and disappear by an environment step that may touch the subscription's row.
- Provider transport, response parsing and the mapping of decline texts: a charge is an oracle. The extra `order_reference` keyword of the renewal charge is ignored.
- The choice of customer, callback address and payment method when a subscription is created, and the checkout session it opens.
- Missing plan and customer rows in the workers, and invoices without a subscription.
- Tenant filters, the paging of the plan list, and the date window and tenant selection of attempts in reconciliation: the lists they yield are inputs.
- Interleaving of two workers inside the processing of one row, crashes between the commits of one step, and what the session does to loaded rows after a rollback: each step is atomic. A worker that spans several accounts selects an account's rows when it reaches the account.
- Aliasing between invoice rows: invoices are values inside the record of their subscription, which is updated in place.
- Dates outside the years 1 to 9999, which the library refuses; the calendar of the model is unbounded. A non-positive interval count is allowed; statements that need a positive one say so.
- Numerals with exponents, surrounding blanks or non-numbers in the money parsers, and the context rounding of inputs of more than 28 digits.
- The division by 100 that turns the analytics results into floating-point major units: sums are stated in minor units.
- Proration of products of 2^52 or more, where the floating-point division itself rounds.
- The event type string, classified into the three kinds the handler distinguishes, and the parsing of order references, classified into absent, malformed and UUID.
- The texts of discrepancies and of audit reasons, and the actor names. Reconciliation commits at its end in the model; the worker that calls it never commits.
- Fairness of the token lock: a waiter may take it at any moment it is free.
