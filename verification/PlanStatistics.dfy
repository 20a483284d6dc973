// app/plans/service.py and app/analytics/service.py: the aggregate queries as
// relational expressions over the tables they read.
module PlanStatistics {
  import opened Prelude

  datatype PlanRow = PlanRow(id: int, tenant: int, project: Option<int>)
  datatype SubscriptionRow = SubscriptionRow(id: int, planId: int, tenant: int)
  datatype InvoiceRow = InvoiceRow(subscriptionId: Option<int>, tenant: int, isTest: bool, paid: bool,
                                   amountDue: int, paidAt: int)

  // ------------------------------------------------------------ list_with_stats

  // One row of plan LEFT JOIN subscription LEFT JOIN paid invoice.
  datatype JoinedRow = JoinedRow(sub: Option<SubscriptionRow>, invoice: Option<InvoiceRow>)

  predicate PaidFor(inv: InvoiceRow, s: SubscriptionRow) {
    inv.subscriptionId == Some(s.id) && inv.paid
  }

  function InvoiceMatches(s: SubscriptionRow, invs: seq<InvoiceRow>): seq<JoinedRow> {
    if invs == [] then []
    else
      var n := |invs| - 1;
      InvoiceMatches(s, invs[..n]) + (if PaidFor(invs[n], s) then [JoinedRow(Some(s), Some(invs[n]))] else [])
  }

  // An outer join keeps a left row that has no match.
  function OuterInvoices(s: SubscriptionRow, invs: seq<InvoiceRow>): seq<JoinedRow> {
    if InvoiceMatches(s, invs) == [] then [JoinedRow(Some(s), None)] else InvoiceMatches(s, invs)
  }

  function SubscriptionMatches(p: PlanRow, subs: seq<SubscriptionRow>, invs: seq<InvoiceRow>): seq<JoinedRow> {
    if subs == [] then []
    else
      var n := |subs| - 1;
      SubscriptionMatches(p, subs[..n], invs) + (if subs[n].planId == p.id then OuterInvoices(subs[n], invs) else [])
  }

  function JoinedRows(p: PlanRow, subs: seq<SubscriptionRow>, invs: seq<InvoiceRow>): seq<JoinedRow> {
    if SubscriptionMatches(p, subs, invs) == [] then [JoinedRow(None, None)] else SubscriptionMatches(p, subs, invs)
  }

  // count(distinct subscription.id); nulls are not counted.
  function DistinctIds(rows: seq<JoinedRow>): set<int> {
    set r | r in rows && r.sub.Some? :: r.sub.value.id
  }

  // coalesce(sum(invoice.amount_due), 0)
  function AmountSum(rows: seq<JoinedRow>): int {
    if rows == [] then 0
    else
      var last := rows[|rows| - 1];
      AmountSum(rows[..|rows| - 1]) + (if last.invoice.Some? then last.invoice.value.amountDue else 0)
  }

  datatype Stats = Stats(subscriptionCount: nat, revenue: int)

  // One group of list_with_stats.
  function ListedStats(p: PlanRow, subs: seq<SubscriptionRow>, invs: seq<InvoiceRow>): Stats {
    var rows := JoinedRows(p, subs, invs);
    Stats(|DistinctIds(rows)|, AmountSum(rows))
  }

  // ------------------------------------------------------------- get_with_stats

  function CountForPlan(planId: int, tenant: int, subs: seq<SubscriptionRow>): nat {
    if subs == [] then 0
    else
      var n := |subs| - 1;
      CountForPlan(planId, tenant, subs[..n]) + (if subs[n].planId == planId && subs[n].tenant == tenant then 1 else 0)
  }

  // What one paid invoice contributes to the inner join with the subscriptions.
  function Share(inv: InvoiceRow, planId: int, tenant: int, subs: seq<SubscriptionRow>): int {
    if subs == [] then 0
    else
      var n := |subs| - 1;
      Share(inv, planId, tenant, subs[..n]) +
        (if PaidFor(inv, subs[n]) && subs[n].planId == planId && subs[n].tenant == tenant then inv.amountDue else 0)
  }

  function RevenueForPlan(planId: int, tenant: int, subs: seq<SubscriptionRow>, invs: seq<InvoiceRow>): int {
    if invs == [] then 0
    else
      var n := |invs| - 1;
      RevenueForPlan(planId, tenant, subs, invs[..n]) + Share(invs[n], planId, tenant, subs)
  }

  function FetchedStats(p: PlanRow, tenant: int, subs: seq<SubscriptionRow>, invs: seq<InvoiceRow>): Stats {
    Stats(CountForPlan(p.id, tenant, subs), RevenueForPlan(p.id, tenant, subs, invs))
  }

  // ----------------------------------------------------------------- equivalence

  // Subscription ids are a primary key.
  ghost predicate UniqueIds(subs: seq<SubscriptionRow>) {
    forall i, j :: 0 <= i < j < |subs| ==> subs[i].id != subs[j].id
  }

  ghost predicate OwnTenant(p: PlanRow, tenant: int, subs: seq<SubscriptionRow>) {
    forall i :: 0 <= i < |subs| && subs[i].planId == p.id ==> subs[i].tenant == tenant
  }

  lemma {:induction false} AmountSumOfSum(a: seq<JoinedRow>, b: seq<JoinedRow>)
    ensures AmountSum(a + b) == AmountSum(a) + AmountSum(b)
    decreases |b|
  {
    if b == [] {
      assert a + b == a;
    } else {
      assert (a + b)[..|a + b| - 1] == a + b[..|b| - 1];
      AmountSumOfSum(a, b[..|b| - 1]);
    }
  }

  function PaidTotal(s: SubscriptionRow, invs: seq<InvoiceRow>): int {
    if invs == [] then 0
    else
      var n := |invs| - 1;
      PaidTotal(s, invs[..n]) + (if PaidFor(invs[n], s) then invs[n].amountDue else 0)
  }

  lemma AmountOfOne(r: JoinedRow)
    ensures AmountSum([r]) == if r.invoice.Some? then r.invoice.value.amountDue else 0
  {
    assert [r][..0] == [];
  }

  lemma {:induction false} MatchesSumUp(s: SubscriptionRow, invs: seq<InvoiceRow>)
    ensures AmountSum(InvoiceMatches(s, invs)) == PaidTotal(s, invs)
  {
    hide AmountSum;
    if invs == [] {
      NothingSums();
    } else {
      var n := |invs| - 1;
      MatchesSumUp(s, invs[..n]);
      var last := JoinedRow(Some(s), Some(invs[n]));
      AmountOfOne(last);
      AmountSumOfSum(InvoiceMatches(s, invs[..n]), [last]);
      assert InvoiceMatches(s, invs[..n]) + [] == InvoiceMatches(s, invs[..n]);
    }
  }

  lemma NothingSums()
    ensures AmountSum([]) == 0
  {}

  // The null row of an outer join adds nothing.
  lemma OuterKeepsSum(s: SubscriptionRow, invs: seq<InvoiceRow>)
    ensures AmountSum(OuterInvoices(s, invs)) == PaidTotal(s, invs)
  {
    hide AmountSum;
    MatchesSumUp(s, invs);
    AmountOfOne(JoinedRow(Some(s), None));
    NothingSums();
  }

  function PlanTotal(p: PlanRow, subs: seq<SubscriptionRow>, invs: seq<InvoiceRow>): int {
    if subs == [] then 0
    else
      var n := |subs| - 1;
      PlanTotal(p, subs[..n], invs) + (if subs[n].planId == p.id then PaidTotal(subs[n], invs) else 0)
  }

  lemma {:induction false} JoinSumsUp(p: PlanRow, subs: seq<SubscriptionRow>, invs: seq<InvoiceRow>)
    ensures AmountSum(JoinedRows(p, subs, invs)) == AmountSum(SubscriptionMatches(p, subs, invs)) == PlanTotal(p, subs, invs)
  {
    hide OuterInvoices, PaidTotal;
    AmountOfOne(JoinedRow(None, None));
    if subs != [] {
      var n := |subs| - 1;
      JoinSumsUp(p, subs[..n], invs);
      OuterKeepsSum(subs[n], invs);
      AmountSumOfSum(SubscriptionMatches(p, subs[..n], invs),
        if subs[n].planId == p.id then OuterInvoices(subs[n], invs) else []);
    }
  }

  // The two queries add the same amounts in a different order.
  lemma {:induction false} SumsSwap(p: PlanRow, tenant: int, subs: seq<SubscriptionRow>, invs: seq<InvoiceRow>)
    requires OwnTenant(p, tenant, subs)
    ensures PlanTotal(p, subs, invs) == RevenueForPlan(p.id, tenant, subs, invs)
  {
    if invs == [] {
      NothingPaid(p, subs);
    } else {
      var n := |invs| - 1;
      SumsSwap(p, tenant, subs, invs[..n]);
      OneMoreInvoice(p, tenant, subs, invs);
    }
  }

  lemma {:induction false} NothingPaid(p: PlanRow, subs: seq<SubscriptionRow>)
    ensures PlanTotal(p, subs, []) == 0
  {
    if subs != [] { NothingPaid(p, subs[..|subs| - 1]); }
  }

  lemma {:induction false} OneMoreInvoice(p: PlanRow, tenant: int, subs: seq<SubscriptionRow>, invs: seq<InvoiceRow>)
    requires OwnTenant(p, tenant, subs) && invs != []
    ensures PlanTotal(p, subs, invs) ==
            PlanTotal(p, subs, invs[..|invs| - 1]) + Share(invs[|invs| - 1], p.id, tenant, subs)
  {
    if subs != [] { OneMoreInvoice(p, tenant, subs[..|subs| - 1], invs); }
  }

  // The ids of the subscriptions of a plan, whatever their tenant.
  ghost function IdsOfPlan(p: PlanRow, subs: seq<SubscriptionRow>): set<int> {
    set i | 0 <= i < |subs| && subs[i].planId == p.id :: subs[i].id
  }

  lemma {:induction false} MatchesCarrySubscription(s: SubscriptionRow, invs: seq<InvoiceRow>)
    ensures forall r :: r in InvoiceMatches(s, invs) ==> r.sub == Some(s)
    ensures OuterInvoices(s, invs) != [] && DistinctIds(OuterInvoices(s, invs)) == {s.id}
  {
    if invs != [] { MatchesCarrySubscription(s, invs[..|invs| - 1]); }
    var rows := OuterInvoices(s, invs);
    assert forall r :: r in rows ==> r.sub == Some(s);
    assert rows[0] in rows;
  }

  lemma {:induction false} JoinKeepsIds(p: PlanRow, subs: seq<SubscriptionRow>, invs: seq<InvoiceRow>)
    ensures DistinctIds(JoinedRows(p, subs, invs)) == DistinctIds(SubscriptionMatches(p, subs, invs)) == IdsOfPlan(p, subs)
  {
    hide OuterInvoices;
    if subs != [] {
      var n := |subs| - 1;
      JoinKeepsIds(p, subs[..n], invs);
      MatchesCarrySubscription(subs[n], invs);
      IdsOneMore(p, subs);
      DistinctOfSum(SubscriptionMatches(p, subs[..n], invs),
        if subs[n].planId == p.id then OuterInvoices(subs[n], invs) else []);
    }
  }

  lemma DistinctOfSum(a: seq<JoinedRow>, b: seq<JoinedRow>)
    ensures DistinctIds(a + b) == DistinctIds(a) + DistinctIds(b)
  {}

  lemma IdsOneMore(p: PlanRow, subs: seq<SubscriptionRow>)
    requires subs != []
    ensures var n := |subs| - 1;
            IdsOfPlan(p, subs) == IdsOfPlan(p, subs[..n]) + (if subs[n].planId == p.id then {subs[n].id} else {})
  {
    var n := |subs| - 1;
    assert forall i :: 0 <= i < n ==> subs[..n][i] == subs[i];
  }

  lemma OwnTenantOneMore(p: PlanRow, tenant: int, subs: seq<SubscriptionRow>)
    requires subs != []
    ensures var n := |subs| - 1;
            OwnTenant(p, tenant, subs) <==>
              OwnTenant(p, tenant, subs[..n]) && (subs[n].planId == p.id ==> subs[n].tenant == tenant)
  {
    var n := |subs| - 1;
    assert forall i :: 0 <= i < n ==> subs[..n][i] == subs[i];
  }

  lemma LastIdIsNew(p: PlanRow, subs: seq<SubscriptionRow>)
    requires UniqueIds(subs) && subs != []
    ensures UniqueIds(subs[..|subs| - 1]) && subs[|subs| - 1].id !in IdsOfPlan(p, subs[..|subs| - 1])
  {}

  lemma {:induction false} CountsCompare(p: PlanRow, tenant: int, subs: seq<SubscriptionRow>)
    requires UniqueIds(subs)
    ensures CountForPlan(p.id, tenant, subs) <= |IdsOfPlan(p, subs)|
    ensures CountForPlan(p.id, tenant, subs) == |IdsOfPlan(p, subs)| <==> OwnTenant(p, tenant, subs)
  {
    if subs == [] {
      assert IdsOfPlan(p, subs) == {};
    } else {
      hide IdsOfPlan, OwnTenant, UniqueIds;
      LastIdIsNew(p, subs);
      CountsCompare(p, tenant, subs[..|subs| - 1]);
      IdsOneMore(p, subs);
      OwnTenantOneMore(p, tenant, subs);
    }
  }

  // The grouped double outer join gives a plan the same subscription count as the
  // query by id exactly when every subscription of the plan belongs to the tenant,
  // and then the same revenue too: no invoice is counted twice or lost by the joins.
  lemma PlanQueriesAgree(p: PlanRow, tenant: int, subs: seq<SubscriptionRow>, invs: seq<InvoiceRow>)
    requires UniqueIds(subs)
    ensures ListedStats(p, subs, invs).subscriptionCount == FetchedStats(p, tenant, subs, invs).subscriptionCount <==>
            OwnTenant(p, tenant, subs)
    ensures OwnTenant(p, tenant, subs) ==> ListedStats(p, subs, invs) == FetchedStats(p, tenant, subs, invs)
  {
    hide JoinedRows, AmountSum, DistinctIds;
    JoinKeepsIds(p, subs, invs);
    CountsCompare(p, tenant, subs);
    JoinSumsUp(p, subs, invs);
    if OwnTenant(p, tenant, subs) { SumsSwap(p, tenant, subs, invs); }
  }

  // The invoice belongs to a subscription of the plan.
  ghost predicate BelongsTo(inv: InvoiceRow, p: PlanRow, subs: seq<SubscriptionRow>) {
    exists i :: 0 <= i < |subs| && subs[i].planId == p.id && inv.subscriptionId == Some(subs[i].id)
  }

  lemma {:induction false} OneMoreInPlan(p: PlanRow, subs: seq<SubscriptionRow>, invs: seq<InvoiceRow>, inv: InvoiceRow)
    requires UniqueIds(subs)
    ensures PlanTotal(p, subs, invs + [inv]) ==
            PlanTotal(p, subs, invs) + (if inv.paid && BelongsTo(inv, p, subs) then inv.amountDue else 0)
  {
    if subs != [] {
      var n := |subs| - 1;
      OneMoreInPlan(p, subs[..n], invs, inv);
      assert (invs + [inv])[..|invs|] == invs;
      BelongsToOneMore(inv, p, subs);
    }
  }

  lemma BelongsToOneMore(inv: InvoiceRow, p: PlanRow, subs: seq<SubscriptionRow>)
    requires UniqueIds(subs) && subs != []
    ensures var n := |subs| - 1;
            var last := subs[n].planId == p.id && inv.subscriptionId == Some(subs[n].id);
            && (BelongsTo(inv, p, subs) <==> BelongsTo(inv, p, subs[..n]) || last)
            && !(BelongsTo(inv, p, subs[..n]) && last)
            && UniqueIds(subs[..n])
  {
    var n := |subs| - 1;
    if BelongsTo(inv, p, subs[..n]) {
      var i :| 0 <= i < n && subs[..n][i].planId == p.id && inv.subscriptionId == Some(subs[..n][i].id);
      assert subs[i].planId == p.id && inv.subscriptionId == Some(subs[i].id);
    }
    if BelongsTo(inv, p, subs) {
      var i :| 0 <= i < |subs| && subs[i].planId == p.id && inv.subscriptionId == Some(subs[i].id);
      if i < n { assert subs[..n][i].planId == p.id && inv.subscriptionId == Some(subs[..n][i].id); }
    }
  }

  // What one more invoice does to a plan's row: a paid invoice of one of its
  // subscriptions adds its amount to the revenue; any other changes nothing.
  lemma OneMoreInvoiceInStats(p: PlanRow, subs: seq<SubscriptionRow>, invs: seq<InvoiceRow>, inv: InvoiceRow)
    requires UniqueIds(subs)
    ensures var before, after := ListedStats(p, subs, invs), ListedStats(p, subs, invs + [inv]);
            && after.subscriptionCount == before.subscriptionCount
            && after.revenue == before.revenue + (if inv.paid && BelongsTo(inv, p, subs) then inv.amountDue else 0)
  {
    hide JoinedRows, AmountSum, DistinctIds;
    JoinKeepsIds(p, subs, invs);
    JoinKeepsIds(p, subs, invs + [inv]);
    JoinSumsUp(p, subs, invs);
    JoinSumsUp(p, subs, invs + [inv]);
    OneMoreInPlan(p, subs, invs, inv);
  }

  // -------------------------------------------------------------- daily revenue

  // One selected invoice of the analytics queries: its payment date and its amount.
  datatype Payment = Payment(date: int, amount: int)

  predicate Selected(inv: InvoiceRow, s: SubscriptionRow, p: PlanRow, tenant: int, project: int, isTest: bool, since: Instant) {
    && s.planId == p.id && inv.subscriptionId == Some(s.id)
    && inv.tenant == tenant && inv.isTest == isTest && inv.paid
    && p.project == Some(project) && inv.paidAt >= since
  }

  function WithPlans(inv: InvoiceRow, s: SubscriptionRow, plans: seq<PlanRow>,
                     tenant: int, project: int, isTest: bool, since: Instant): seq<Payment> {
    if plans == [] then []
    else
      var n := |plans| - 1;
      WithPlans(inv, s, plans[..n], tenant, project, isTest, since) +
        (if Selected(inv, s, plans[n], tenant, project, isTest, since)
         then [Payment(WholeDays(inv.paidAt), inv.amountDue)] else [])
  }

  function WithSubscriptions(inv: InvoiceRow, subs: seq<SubscriptionRow>, plans: seq<PlanRow>,
                             tenant: int, project: int, isTest: bool, since: Instant): seq<Payment> {
    if subs == [] then []
    else
      var n := |subs| - 1;
      WithSubscriptions(inv, subs[..n], plans, tenant, project, isTest, since) +
        WithPlans(inv, subs[n], plans, tenant, project, isTest, since)
  }

  // The inner joins and filters that the two analytics queries share.
  function SelectedPayments(invs: seq<InvoiceRow>, subs: seq<SubscriptionRow>, plans: seq<PlanRow>,
                            tenant: int, project: int, isTest: bool, since: Instant): seq<Payment> {
    if invs == [] then []
    else
      var n := |invs| - 1;
      SelectedPayments(invs[..n], subs, plans, tenant, project, isTest, since) +
        WithSubscriptions(invs[n], subs, plans, tenant, project, isTest, since)
  }

  function Total(payments: seq<Payment>): int {
    if payments == [] then 0 else Total(payments[..|payments| - 1]) + payments[|payments| - 1].amount
  }

  function DayTotal(payments: seq<Payment>, date: int): int {
    if payments == [] then 0
    else
      var last := payments[|payments| - 1];
      DayTotal(payments[..|payments| - 1], date) + (if last.date == date then last.amount else 0)
  }

  // get_total_volume, in minor units.
  function TotalVolume(invs: seq<InvoiceRow>, subs: seq<SubscriptionRow>, plans: seq<PlanRow>,
                       tenant: int, project: int, isTest: bool, since: Instant): int {
    Total(SelectedPayments(invs, subs, plans, tenant, project, isTest, since))
  }

  // GROUP BY date ORDER BY date with the sum of each group.
  function AddToGroup(groups: seq<Payment>, p: Payment): seq<Payment> {
    if groups == [] then [p]
    else
      var n := |groups| - 1;
      if groups[n].date < p.date then groups + [p]
      else if groups[n].date == p.date then groups[..n] + [Payment(p.date, groups[n].amount + p.amount)]
      else AddToGroup(groups[..n], p) + [groups[n]]
  }

  function GroupByDate(payments: seq<Payment>): seq<Payment> {
    if payments == [] then []
    else AddToGroup(GroupByDate(payments[..|payments| - 1]), payments[|payments| - 1])
  }

  // get_revenue_chart, in minor units.
  function RevenueChart(invs: seq<InvoiceRow>, subs: seq<SubscriptionRow>, plans: seq<PlanRow>,
                        tenant: int, project: int, isTest: bool, since: Instant): seq<Payment> {
    GroupByDate(SelectedPayments(invs, subs, plans, tenant, project, isTest, since))
  }

  ghost predicate AscendingDates(groups: seq<Payment>) {
    forall i, j :: 0 <= i < j < |groups| ==> groups[i].date < groups[j].date
  }

  ghost predicate HasDate(payments: seq<Payment>, date: int) {
    exists i :: 0 <= i < |payments| && payments[i].date == date
  }

  lemma {:induction false} TotalOfSum(a: seq<Payment>, b: Payment)
    ensures Total(a + [b]) == Total(a) + b.amount
    ensures forall date :: DayTotal(a + [b], date) == DayTotal(a, date) + (if b.date == date then b.amount else 0)
    ensures forall date :: HasDate(a + [b], date) <==> HasDate(a, date) || b.date == date
  {
    assert (a + [b])[..|a|] == a;
    forall date ensures HasDate(a + [b], date) <==> HasDate(a, date) || b.date == date {
      if HasDate(a, date) {
        var i :| 0 <= i < |a| && a[i].date == date;
        assert (a + [b])[i].date == date;
      }
      if b.date == date { assert (a + [b])[|a|].date == date; }
    }
  }

  lemma {:induction false} AddToGroupSums(groups: seq<Payment>, p: Payment, date: int)
    ensures var post := AddToGroup(groups, p);
            && Total(post) == Total(groups) + p.amount
            && DayTotal(post, date) == DayTotal(groups, date) + (if p.date == date then p.amount else 0)
            && (HasDate(post, date) <==> HasDate(groups, date) || p.date == date)
    decreases |groups|
  {
    hide Total, DayTotal, HasDate;
    if groups == [] {
      TotalOfSum([], p);
      assert [] + [p] == [p];
    } else {
      var n := |groups| - 1;
      var front, last := groups[..n], groups[n];
      assert groups == front + [last];
      TotalOfSum(front, last);
      if last.date < p.date {
        TotalOfSum(groups, p);
      } else if last.date == p.date {
        TotalOfSum(front, Payment(p.date, last.amount + p.amount));
      } else {
        AddToGroupSums(front, p, date);
        TotalOfSum(AddToGroup(front, p), last);
      }
    }
  }

  lemma {:induction false} AddToGroupOrders(groups: seq<Payment>, p: Payment)
    requires AscendingDates(groups)
    ensures var post := AddToGroup(groups, p);
            && AscendingDates(post) && post != []
            && post[|post| - 1].date ==
                 (if groups == [] || groups[|groups| - 1].date < p.date then p.date else groups[|groups| - 1].date)
    decreases |groups|
  {
    if groups != [] {
      var n := |groups| - 1;
      if groups[n].date > p.date {
        AddToGroupOrders(groups[..n], p);
        LastIsGreatest(AddToGroup(groups[..n], p));
      }
    }
  }

  lemma LastIsGreatest(groups: seq<Payment>)
    requires AscendingDates(groups) && groups != []
    ensures forall i :: 0 <= i < |groups| ==> groups[i].date <= groups[|groups| - 1].date
  {}

  // The chart has one row per day with a payment, in order; each row is the sum of
  // its day and the rows add up to the total volume.
  lemma {:induction false} GroupingIsExact(payments: seq<Payment>)
    ensures var chart := GroupByDate(payments);
            && AscendingDates(chart)
            && Total(chart) == Total(payments)
            && (forall date :: DayTotal(chart, date) == DayTotal(payments, date))
            && (forall date :: HasDate(chart, date) <==> HasDate(payments, date))
  {
    if payments != [] {
      var n := |payments| - 1;
      var front, last := payments[..n], payments[n];
      assert payments == front + [last];
      GroupingIsExact(front);
      AddToGroupOrders(GroupByDate(front), last);
      AddToGroupSums(GroupByDate(front), last, 0);
      forall date
        ensures DayTotal(GroupByDate(payments), date) == DayTotal(payments, date)
        ensures HasDate(GroupByDate(payments), date) <==> HasDate(payments, date)
      {
        AddToGroupSums(GroupByDate(front), last, date);
        TotalOfSum(front, last);
      }
      TotalOfSum(front, last);
    }
  }

  lemma ChartAddsUpToVolume(invs: seq<InvoiceRow>, subs: seq<SubscriptionRow>, plans: seq<PlanRow>,
                            tenant: int, project: int, isTest: bool, since: Instant)
    ensures var chart := RevenueChart(invs, subs, plans, tenant, project, isTest, since);
            && Total(chart) == TotalVolume(invs, subs, plans, tenant, project, isTest, since)
            && AscendingDates(chart)
            && forall k :: 0 <= k < |chart| ==>
                 chart[k].amount ==
                   DayTotal(SelectedPayments(invs, subs, plans, tenant, project, isTest, since), chart[k].date)
  {
    hide SelectedPayments, GroupByDate;
    var payments := SelectedPayments(invs, subs, plans, tenant, project, isTest, since);
    GroupingIsExact(payments);
    var chart := GroupByDate(payments);
    forall k | 0 <= k < |chart| ensures chart[k].amount == DayTotal(chart, chart[k].date) {
      OneRowPerDay(chart, k);
    }
  }

  lemma {:induction false} OneRowPerDay(groups: seq<Payment>, k: nat)
    requires AscendingDates(groups) && k < |groups|
    ensures DayTotal(groups, groups[k].date) == groups[k].amount
    decreases |groups|
  {
    var n := |groups| - 1;
    if k < n {
      OneRowPerDay(groups[..n], k);
    } else {
      NoSuchDay(groups[..n], groups[k].date);
    }
  }

  lemma {:induction false} NoSuchDay(groups: seq<Payment>, date: int)
    requires forall i :: 0 <= i < |groups| ==> groups[i].date != date
    ensures DayTotal(groups, date) == 0
  {
    if groups != [] { NoSuchDay(groups[..|groups| - 1], date); }
  }

  // ------------------------------------------------------- what the volume counts

  ghost predicate UniquePlans(plans: seq<PlanRow>) {
    forall i, j :: 0 <= i < j < |plans| ==> plans[i].id != plans[j].id
  }

  // The invoice belongs to a subscription whose plan is in the project.
  ghost predicate InProject(inv: InvoiceRow, subs: seq<SubscriptionRow>, plans: seq<PlanRow>, project: int) {
    exists i :: 0 <= i < |subs| && inv.subscriptionId == Some(subs[i].id) && PlanInProject(subs[i], plans, project)
  }

  ghost predicate PlanInProject(s: SubscriptionRow, plans: seq<PlanRow>, project: int) {
    exists j :: 0 <= j < |plans| && plans[j].id == s.planId && plans[j].project == Some(project)
  }

  lemma {:induction false} TotalOfConcat(a: seq<Payment>, b: seq<Payment>)
    ensures Total(a + b) == Total(a) + Total(b)
    decreases |b|
  {
    if b == [] {
      assert a + b == a;
    } else {
      assert (a + b)[..|a + b| - 1] == a + b[..|b| - 1];
      TotalOfConcat(a, b[..|b| - 1]);
    }
  }

  lemma TotalOfOne(p: Payment)
    ensures Total([p]) == p.amount && Total([]) == 0
  {
    assert [p][..0] == [];
  }

  // Paid, of the tenant and the mode, and not too old.
  predicate Counts(inv: InvoiceRow, tenant: int, isTest: bool, since: Instant) {
    inv.paid && inv.tenant == tenant && inv.isTest == isTest && inv.paidAt >= since
  }

  lemma {:induction false} PlansShare(inv: InvoiceRow, s: SubscriptionRow, plans: seq<PlanRow>,
                                      tenant: int, project: int, isTest: bool, since: Instant)
    requires UniquePlans(plans)
    ensures Total(WithPlans(inv, s, plans, tenant, project, isTest, since)) ==
            if Counts(inv, tenant, isTest, since) && inv.subscriptionId == Some(s.id) && PlanInProject(s, plans, project)
            then inv.amountDue else 0
  {
    hide Total;
    TotalOfOne(Payment(WholeDays(inv.paidAt), inv.amountDue));
    if plans != [] {
      var n := |plans| - 1;
      PlansShare(inv, s, plans[..n], tenant, project, isTest, since);
      PlanInProjectOneMore(s, plans, project);
      TotalOfConcat(WithPlans(inv, s, plans[..n], tenant, project, isTest, since),
        if Selected(inv, s, plans[n], tenant, project, isTest, since)
        then [Payment(WholeDays(inv.paidAt), inv.amountDue)] else []);
    }
  }

  lemma PlanInProjectOneMore(s: SubscriptionRow, plans: seq<PlanRow>, project: int)
    requires UniquePlans(plans) && plans != []
    ensures var n := |plans| - 1;
            var last := plans[n].id == s.planId && plans[n].project == Some(project);
            && UniquePlans(plans[..n])
            && (PlanInProject(s, plans, project) <==> PlanInProject(s, plans[..n], project) || last)
            && !(PlanInProject(s, plans[..n], project) && last)
  {
    var n := |plans| - 1;
    assert forall j :: 0 <= j < n ==> plans[..n][j] == plans[j];
  }

  lemma {:induction false} SubscriptionsShare(inv: InvoiceRow, subs: seq<SubscriptionRow>, plans: seq<PlanRow>,
                                              tenant: int, project: int, isTest: bool, since: Instant)
    requires UniqueIds(subs) && UniquePlans(plans)
    ensures Total(WithSubscriptions(inv, subs, plans, tenant, project, isTest, since)) ==
            if Counts(inv, tenant, isTest, since) && InProject(inv, subs, plans, project) then inv.amountDue else 0
  {
    hide Total, WithPlans, Counts;
    TotalOfOne(Payment(0, 0));
    if subs != [] {
      var n := |subs| - 1;
      InProjectOneMore(inv, subs, plans, project);
      SubscriptionsShare(inv, subs[..n], plans, tenant, project, isTest, since);
      PlansShare(inv, subs[n], plans, tenant, project, isTest, since);
      TotalOfConcat(WithSubscriptions(inv, subs[..n], plans, tenant, project, isTest, since),
        WithPlans(inv, subs[n], plans, tenant, project, isTest, since));
    }
  }

  lemma InProjectOneMore(inv: InvoiceRow, subs: seq<SubscriptionRow>, plans: seq<PlanRow>, project: int)
    requires UniqueIds(subs) && subs != []
    ensures var n := |subs| - 1;
            var last := inv.subscriptionId == Some(subs[n].id) && PlanInProject(subs[n], plans, project);
            && UniqueIds(subs[..n])
            && (InProject(inv, subs, plans, project) <==> InProject(inv, subs[..n], plans, project) || last)
            && !(InProject(inv, subs[..n], plans, project) && last)
  {
    hide PlanInProject;
    var n := |subs| - 1;
    assert forall i :: 0 <= i < n ==> subs[..n][i] == subs[i];
  }

  // What one more invoice does to the total volume, and so to the chart: it adds its
  // amount exactly when it is paid, of the tenant, of the mode, paid since the date and
  // of a plan of the project.
  lemma OneMoreInvoiceInVolume(invs: seq<InvoiceRow>, inv: InvoiceRow, subs: seq<SubscriptionRow>, plans: seq<PlanRow>,
                               tenant: int, project: int, isTest: bool, since: Instant)
    requires UniqueIds(subs) && UniquePlans(plans)
    ensures TotalVolume(invs + [inv], subs, plans, tenant, project, isTest, since) ==
            TotalVolume(invs, subs, plans, tenant, project, isTest, since) +
            (if inv.paid && inv.tenant == tenant && inv.isTest == isTest && inv.paidAt >= since &&
                InProject(inv, subs, plans, project)
             then inv.amountDue else 0)
  {
    hide Total, WithSubscriptions;
    assert (invs + [inv])[..|invs|] == invs;
    SubscriptionsShare(inv, subs, plans, tenant, project, isTest, since);
    TotalOfConcat(SelectedPayments(invs, subs, plans, tenant, project, isTest, since),
      WithSubscriptions(inv, subs, plans, tenant, project, isTest, since));
  }

  ghost predicate AllOn(payments: seq<Payment>, date: int) {
    forall i :: 0 <= i < |payments| ==> payments[i].date == date
  }

  lemma {:induction false} TotalOnOneDay(payments: seq<Payment>, date: int, d: int)
    requires AllOn(payments, date)
    ensures DayTotal(payments, d) == if d == date then Total(payments) else 0
  {
    if payments != [] { TotalOnOneDay(payments[..|payments| - 1], date, d); }
  }

  lemma {:induction false} PlansOnOneDay(inv: InvoiceRow, s: SubscriptionRow, plans: seq<PlanRow>,
                                         tenant: int, project: int, isTest: bool, since: Instant)
    ensures AllOn(WithPlans(inv, s, plans, tenant, project, isTest, since), WholeDays(inv.paidAt))
  {
    if plans != [] { PlansOnOneDay(inv, s, plans[..|plans| - 1], tenant, project, isTest, since); }
  }

  lemma {:induction false} SubscriptionsOnOneDay(inv: InvoiceRow, subs: seq<SubscriptionRow>, plans: seq<PlanRow>,
                                                 tenant: int, project: int, isTest: bool, since: Instant)
    ensures AllOn(WithSubscriptions(inv, subs, plans, tenant, project, isTest, since), WholeDays(inv.paidAt))
  {
    if subs != [] {
      SubscriptionsOnOneDay(inv, subs[..|subs| - 1], plans, tenant, project, isTest, since);
      PlansOnOneDay(inv, subs[|subs| - 1], plans, tenant, project, isTest, since);
    }
  }

  lemma {:induction false} DayTotalOfConcat(a: seq<Payment>, b: seq<Payment>, d: int)
    ensures DayTotal(a + b, d) == DayTotal(a, d) + DayTotal(b, d)
    decreases |b|
  {
    if b == [] {
      assert a + b == a;
    } else {
      assert (a + b)[..|a + b| - 1] == a + b[..|b| - 1];
      DayTotalOfConcat(a, b[..|b| - 1], d);
    }
  }

  // In the chart it adds its amount to the row of the day on which it was paid, and to no
  // other.
  lemma OneMoreInvoiceInChart(invs: seq<InvoiceRow>, inv: InvoiceRow, subs: seq<SubscriptionRow>, plans: seq<PlanRow>,
                              tenant: int, project: int, isTest: bool, since: Instant, d: int)
    requires UniqueIds(subs) && UniquePlans(plans)
    ensures DayTotal(RevenueChart(invs + [inv], subs, plans, tenant, project, isTest, since), d) ==
            DayTotal(RevenueChart(invs, subs, plans, tenant, project, isTest, since), d) +
            (if inv.paid && inv.tenant == tenant && inv.isTest == isTest && inv.paidAt >= since &&
                InProject(inv, subs, plans, project) && Days(d) <= inv.paidAt < Days(d + 1)
             then inv.amountDue else 0)
  {
    hide Total, DayTotal, WithSubscriptions, GroupByDate, InProject;
    var before, after := SelectedPayments(invs, subs, plans, tenant, project, isTest, since),
      SelectedPayments(invs + [inv], subs, plans, tenant, project, isTest, since);
    var added := WithSubscriptions(inv, subs, plans, tenant, project, isTest, since);
    assert (invs + [inv])[..|invs|] == invs;
    assert after == before + added;
    GroupingIsExact(before);
    GroupingIsExact(after);
    SubscriptionsShare(inv, subs, plans, tenant, project, isTest, since);
    SubscriptionsOnOneDay(inv, subs, plans, tenant, project, isTest, since);
    TotalOnOneDay(added, WholeDays(inv.paidAt), d);
    DayTotalOfConcat(before, added, d);
    assert WholeDays(inv.paidAt) == d <==> Days(d) <= inv.paidAt < Days(d + 1);
  }
}
