// app/reconciliation/service.py: matching the provider's transactions against the
// recorded payment attempts.
module Reconciliation {
  import opened Prelude
  import opened Model

  // Raw provider status strings, upper-cased; Other is any string the table does
  // not list.
  datatype ProviderStatus =
    | SUCCESS | REFUND | PAYMENT_FAILED | FAILED | PENDING_BILLING | CANCELLED | REVERSED_BY_VENDOR | Other

  // A provider transaction; the empty string stands for an absent or empty field.
  datatype Transaction = Transaction(
    id: string, merchantTxRef: string, orderReference: string, paymentVendorReference: string,
    status: ProviderStatus, amountMinor: Option<int>)

  // A payment attempt with the amount of its invoice.
  datatype Attempt = Attempt(id: nat, reference: string, status: PaymentStatus, invoiceAmount: Option<int>)

  datatype DiscrepancyKind = MissingInOurs | MissingInNomba | AmountMismatch | StatusMismatch

  datatype Discrepancy = Discrepancy(
    runId: string, kind: DiscrepancyKind, txn: Option<Transaction>, attempt: Option<Attempt>)

  datatype Summary = Summary(totalNomba: nat, totalOurs: nat, matched: nat, discrepancies: nat)

  const STATUS_MAPPING: map<ProviderStatus, PaymentStatus> := map[
    SUCCESS := Success,
    REFUND := Refunded,
    PAYMENT_FAILED := Failed,
    ProviderStatus.FAILED := Failed,
    PENDING_BILLING := Pending,
    CANCELLED := Pending,
    REVERSED_BY_VENDOR := Pending
  ]

  // The first reference field that is not empty.
  function ReferenceOf(t: Transaction): string {
    if t.merchantTxRef != "" then t.merchantTxRef
    else if t.orderReference != "" then t.orderReference
    else if t.paymentVendorReference != "" then t.paymentVendorReference
    else t.id
  }

  predicate StatusesMatch(s: ProviderStatus, ours: PaymentStatus) {
    s in STATUS_MAPPING ==> STATUS_MAPPING[s] == ours
  }

  predicate AmountsDiffer(t: Transaction, a: Attempt) {
    t.amountMinor.Some? && a.invoiceAmount.Some? && t.amountMinor != a.invoiceAmount
  }

  // _compare and the choice of the discrepancy type.
  function Compare(t: Transaction, a: Attempt): Option<DiscrepancyKind> {
    if AmountsDiffer(t, a) then Some(AmountMismatch)
    else if !StatusesMatch(t.status, a.status) then Some(StatusMismatch)
    else None
  }

  // ------------------------------------------------------------------- meaning

  predicate CarriedByAttempt(ours: seq<Attempt>, ref: string) {
    exists j :: 0 <= j < |ours| && ours[j].reference == ref
  }

  predicate CarriedByTransaction(txns: seq<Transaction>, ref: string) {
    exists k :: 0 <= k < |txns| && ReferenceOf(txns[k]) == ref
  }

  // The attempt a reference is compared with: the last one that carries it.
  ghost predicate IsLastWith(ours: seq<Attempt>, ref: string, j: nat) {
    j < |ours| && ours[j].reference == ref && forall i :: j < i < |ours| ==> ours[i].reference != ref
  }

  // What one transaction contributes to the report.
  ghost predicate TransactionReported(runId: string, ours: seq<Attempt>, t: Transaction, out: seq<Discrepancy>) {
    var ref := ReferenceOf(t);
    if ref == "" then out == []
    else if !CarriedByAttempt(ours, ref) then out == [Discrepancy(runId, MissingInOurs, Some(t), None)]
    else
      exists j: nat :: IsLastWith(ours, ref, j) &&
        out == match Compare(t, ours[j])
               case None => []
               case Some(kind) => [Discrepancy(runId, kind, Some(t), Some(ours[j]))]
  }

  ghost predicate AttemptReported(runId: string, txns: seq<Transaction>, a: Attempt, out: seq<Discrepancy>) {
    out == if a.reference != "" && !CarriedByTransaction(txns, a.reference)
           then [Discrepancy(runId, MissingInNomba, None, Some(a))] else []
  }

  // The rows of a report are the contributions, one after the other.
  function Flatten(parts: seq<seq<Discrepancy>>): seq<Discrepancy> {
    if parts == [] then [] else Flatten(parts[..|parts| - 1]) + parts[|parts| - 1]
  }

  ghost predicate IsReport(runId: string, txns: seq<Transaction>, ours: seq<Attempt>,
                           perTxn: seq<seq<Discrepancy>>, perAttempt: seq<seq<Discrepancy>>) {
    && |perTxn| == |txns| && |perAttempt| == |ours|
    && (forall k :: 0 <= k < |txns| ==> TransactionReported(runId, ours, txns[k], perTxn[k]))
    && (forall j :: 0 <= j < |ours| ==> AttemptReported(runId, txns, ours[j], perAttempt[j]))
  }

  ghost function Matched(txns: seq<Transaction>, ours: seq<Attempt>): set<string> {
    set k | 0 <= k < |txns| && ReferenceOf(txns[k]) != "" && CarriedByAttempt(ours, ReferenceOf(txns[k]))
      :: ReferenceOf(txns[k])
  }

  // ----------------------------------------------------------------- the program

  // Step 4 of run_reconciliation: our attempts by reference. A later attempt replaces
  // an earlier one with the same reference.
  method IndexByReference(ours: seq<Attempt>) returns (byRef: map<string, nat>)
    ensures forall ref :: ref in byRef <==> ref != "" && CarriedByAttempt(ours, ref)
    ensures forall ref :: ref in byRef ==> IsLastWith(ours, ref, byRef[ref])
  {
    byRef := map[];
    for j := 0 to |ours|
      invariant forall ref :: ref in byRef ==> ref != "" && IsLastWith(ours[..j], ref, byRef[ref])
      invariant forall i :: 0 <= i < j && ours[i].reference != "" ==> ours[i].reference in byRef
    {
      if ours[j].reference != "" { byRef := byRef[ours[j].reference := j]; }
    }
    assert ours[..|ours|] == ours;
  }

  method MatchOne(runId: string, ours: seq<Attempt>, byRef: map<string, nat>, t: Transaction)
    returns (part: seq<Discrepancy>)
    requires forall ref :: ref in byRef <==> ref != "" && CarriedByAttempt(ours, ref)
    requires forall ref :: ref in byRef ==> IsLastWith(ours, ref, byRef[ref])
    ensures TransactionReported(runId, ours, t, part)
  {
    hide Compare;
    var ref := ReferenceOf(t);
    part := [];
    if ref != "" {
      if ref !in byRef {
        part := [Discrepancy(runId, MissingInOurs, Some(t), None)];
      } else {
        var attempt := ours[byRef[ref]];
        var kind := Compare(t, attempt);
        if kind.Some? {
          part := [Discrepancy(runId, kind.value, Some(t), Some(attempt))];
        }
      }
    }
  }

  // Step 5: a pass over the transactions. The ghost result says which rows each
  // transaction contributed.
  method MatchTransactions(runId: string, txns: seq<Transaction>, ours: seq<Attempt>)
    returns (rows: seq<Discrepancy>, matchedRefs: set<string>, ghost perTxn: seq<seq<Discrepancy>>)
    ensures |perTxn| == |txns| && rows == Flatten(perTxn)
    ensures forall k :: 0 <= k < |txns| ==> TransactionReported(runId, ours, txns[k], perTxn[k])
    ensures matchedRefs == Matched(txns, ours)
  {
    var byRef := IndexByReference(ours);
    rows, perTxn, matchedRefs := [], [], {};
    for k := 0 to |txns|
      invariant |perTxn| == k && rows == Flatten(perTxn)
      invariant forall i :: 0 <= i < k ==> TransactionReported(runId, ours, txns[i], perTxn[i])
      invariant matchedRefs == Matched(txns[..k], ours)
    {
      hide Flatten, Matched, TransactionReported;
      MatchedGrows(txns, ours, k);
      var part := MatchOne(runId, ours, byRef, txns[k]);
      if ReferenceOf(txns[k]) in byRef {
        matchedRefs := matchedRefs + {ReferenceOf(txns[k])};
      }
      FlattenAppend(perTxn, part);
      rows, perTxn := rows + part, perTxn + [part];
    }
    assert txns[..|txns|] == txns;
  }

  // Steps 4 to 6: the pass over the transactions and the reverse pass over the
  // attempts.
  method Classify(runId: string, txns: seq<Transaction>, ours: seq<Attempt>)
    returns (rows: seq<Discrepancy>, matched: nat,
             ghost perTxn: seq<seq<Discrepancy>>, ghost perAttempt: seq<seq<Discrepancy>>)
    ensures IsReport(runId, txns, ours, perTxn, perAttempt)
    ensures rows == Flatten(perTxn) + Flatten(perAttempt)
    ensures matched == |Matched(txns, ours)|
  {
    hide Flatten, TransactionReported;
    var matchedRefs;
    rows, matchedRefs, perTxn := MatchTransactions(runId, txns, ours);
    perAttempt := [];
    NothingFlattened();
    for j := 0 to |ours|
      invariant |perAttempt| == j && rows == Flatten(perTxn) + Flatten(perAttempt)
      invariant forall i :: 0 <= i < j ==> AttemptReported(runId, txns, ours[i], perAttempt[i])
    {
      var a := ours[j];
      var part := [];
      if a.reference != "" {
        MatchedIff(txns, ours, j);
        if a.reference !in matchedRefs {
          part := [Discrepancy(runId, MissingInNomba, None, Some(a))];
        }
      }
      FlattenAppend(perAttempt, part);
      rows, perAttempt := rows + part, perAttempt + [part];
    }
    matched := |matchedRefs|;
  }

  lemma NothingFlattened()
    ensures Flatten([]) == []
  {}

  lemma FlattenAppend(parts: seq<seq<Discrepancy>>, part: seq<Discrepancy>)
    ensures Flatten(parts + [part]) == Flatten(parts) + part
  {
    assert (parts + [part])[..|parts|] == parts;
  }

  lemma MatchedGrows(txns: seq<Transaction>, ours: seq<Attempt>, k: nat)
    requires k < |txns|
    ensures var ref := ReferenceOf(txns[k]);
            Matched(txns[..k + 1], ours) ==
              Matched(txns[..k], ours) + (if ref != "" && CarriedByAttempt(ours, ref) then {ref} else {})
  {
    var a, b := txns[..k], txns[..k + 1];
    assert forall i :: 0 <= i < k ==> a[i] == b[i];
  }

  lemma MatchedIff(txns: seq<Transaction>, ours: seq<Attempt>, j: nat)
    requires j < |ours| && ours[j].reference != ""
    ensures ours[j].reference in Matched(txns, ours) <==> CarriedByTransaction(txns, ours[j].reference)
  {}

  // ------------------------------------------------------------- classification

  // A reference is reported on at most one side. A transaction that has one is
  // reported missing-in-ours exactly when no attempt carries it, an attempt that has
  // one is reported missing-in-nomba exactly when no transaction carries it, and a
  // matched transaction yields at most one mismatch, with duplicates on either side.
  lemma ExactClassification(runId: string, txns: seq<Transaction>, ours: seq<Attempt>,
                            perTxn: seq<seq<Discrepancy>>, perAttempt: seq<seq<Discrepancy>>)
    requires IsReport(runId, txns, ours, perTxn, perAttempt)
    ensures forall k :: 0 <= k < |txns| ==>
              && |perTxn[k]| <= 1
              && (perTxn[k] == [Discrepancy(runId, MissingInOurs, Some(txns[k]), None)] <==>
                    ReferenceOf(txns[k]) != "" && !CarriedByAttempt(ours, ReferenceOf(txns[k])))
              && (forall d :: d in perTxn[k] && d.kind != MissingInOurs ==>
                    d.kind in {AmountMismatch, StatusMismatch} && ReferenceOf(txns[k]) in Matched(txns, ours))
    ensures forall j :: 0 <= j < |ours| ==>
              && |perAttempt[j]| <= 1
              && (perAttempt[j] != [] <==>
                    ours[j].reference != "" && !CarriedByTransaction(txns, ours[j].reference))
    ensures forall k, j, d :: 0 <= k < |txns| && 0 <= j < |ours| ==>
              (perAttempt[j] != [] && d in perTxn[k] && d.kind == MissingInOurs ==>
                 ReferenceOf(txns[k]) != ours[j].reference)
  {
    forall k | 0 <= k < |txns|
      ensures |perTxn[k]| <= 1
      ensures perTxn[k] == [Discrepancy(runId, MissingInOurs, Some(txns[k]), None)] <==>
                ReferenceOf(txns[k]) != "" && !CarriedByAttempt(ours, ReferenceOf(txns[k]))
      ensures forall d :: d in perTxn[k] && d.kind != MissingInOurs ==>
                d.kind in {AmountMismatch, StatusMismatch} && ReferenceOf(txns[k]) in Matched(txns, ours)
      ensures forall d :: d in perTxn[k] && d.kind == MissingInOurs ==> !CarriedByAttempt(ours, ReferenceOf(txns[k]))
    {
      assert TransactionReported(runId, ours, txns[k], perTxn[k]);
    }
  }

  // The number of rows of a report is the number of records that contributed one.
  lemma {:induction false} FlattenCounts(parts: seq<seq<Discrepancy>>)
    requires forall k :: 0 <= k < |parts| ==> |parts[k]| <= 1
    ensures |Flatten(parts)| == |set k | 0 <= k < |parts| && parts[k] != []|
  {
    var contributing := set k | 0 <= k < |parts| && parts[k] != [];
    if parts == [] {
      NothingFlattened();
      assert contributing == {};
    } else {
      hide Flatten;
      var n := |parts| - 1;
      var shorter := parts[..n];
      FlattenCounts(shorter);
      assert parts == shorter + [parts[n]];
      FlattenAppend(shorter, parts[n]);
      var before := set k | 0 <= k < |shorter| && shorter[k] != [];
      assert contributing == before + (if parts[n] != [] then {n} else {});
    }
  }

  predicate UnmatchedTransaction(ours: seq<Attempt>, t: Transaction) {
    ReferenceOf(t) != "" && !CarriedByAttempt(ours, ReferenceOf(t))
  }

  // A transaction that disagrees with the last attempt that carries its reference.
  ghost predicate MismatchingTransaction(ours: seq<Attempt>, t: Transaction) {
    ReferenceOf(t) != "" &&
    exists j: nat :: IsLastWith(ours, ReferenceOf(t), j) && Compare(t, ours[j]).Some?
  }

  predicate UnmatchedAttempt(txns: seq<Transaction>, a: Attempt) {
    a.reference != "" && !CarriedByTransaction(txns, a.reference)
  }

  // A transaction contributes a row exactly when it is unmatched or mismatching, and it
  // is never both.
  lemma ContributesIff(runId: string, ours: seq<Attempt>, t: Transaction, out: seq<Discrepancy>)
    requires TransactionReported(runId, ours, t, out)
    ensures out != [] <==> UnmatchedTransaction(ours, t) || MismatchingTransaction(ours, t)
    ensures !(UnmatchedTransaction(ours, t) && MismatchingTransaction(ours, t))
  {
    hide Compare;
  }

  lemma ForwardCounts(runId: string, txns: seq<Transaction>, ours: seq<Attempt>,
                      perTxn: seq<seq<Discrepancy>>, perAttempt: seq<seq<Discrepancy>>)
    requires IsReport(runId, txns, ours, perTxn, perAttempt)
    ensures |set k | 0 <= k < |perTxn| && perTxn[k] != []| ==
            |set k | 0 <= k < |txns| && UnmatchedTransaction(ours, txns[k])| +
            |set k | 0 <= k < |txns| && MismatchingTransaction(ours, txns[k])|
  {
    hide TransactionReported, UnmatchedTransaction, MismatchingTransaction;
    forall k | 0 <= k < |txns|
      ensures perTxn[k] != [] <==> UnmatchedTransaction(ours, txns[k]) || MismatchingTransaction(ours, txns[k])
      ensures !(UnmatchedTransaction(ours, txns[k]) && MismatchingTransaction(ours, txns[k]))
    {
      ContributesIff(runId, ours, txns[k], perTxn[k]);
    }
    var unmatched := set k | 0 <= k < |txns| && UnmatchedTransaction(ours, txns[k]);
    var mismatching := set k | 0 <= k < |txns| && MismatchingTransaction(ours, txns[k]);
    assert (set k | 0 <= k < |perTxn| && perTxn[k] != []) == unmatched + mismatching;
    assert unmatched !! mismatching;
  }

  // What the provider's status means for an attempt; None when it says nothing.
  function Translated(s: ProviderStatus): Option<PaymentStatus> {
    match s
    case SUCCESS => Some(Success)
    case REFUND => Some(Refunded)
    case PAYMENT_FAILED => Some(Failed)
    case FAILED => Some(PaymentStatus.Failed)
    case PENDING_BILLING => Some(Pending)
    case CANCELLED => Some(Pending)
    case REVERSED_BY_VENDOR => Some(Pending)
    case Other => None
  }

  // The fields of a transaction that may hold its reference, in order of preference; the
  // reference is the first that is not empty.
  lemma ReferenceIsFirstField(t: Transaction)
    ensures var fields := [t.merchantTxRef, t.orderReference, t.paymentVendorReference, t.id];
            if ReferenceOf(t) == "" then forall k :: 0 <= k < 4 ==> fields[k] == ""
            else exists k :: 0 <= k < 4 && fields[k] == ReferenceOf(t) && forall j :: 0 <= j < k ==> fields[j] == ""
  {
    var fields := [t.merchantTxRef, t.orderReference, t.paymentVendorReference, t.id];
    var k := if fields[0] != "" then 0 else if fields[1] != "" then 1 else if fields[2] != "" then 2 else 3;
    assert fields[k] == ReferenceOf(t);
  }

  ghost predicate AmountsDisagree(t: Transaction, a: Attempt) {
    exists x, y :: t.amountMinor == Some(x) && a.invoiceAmount == Some(y) && x != y
  }

  predicate StatusesDisagree(t: Transaction, a: Attempt) {
    Translated(t.status).Some? && Translated(t.status).value != a.status
  }

  // A matched transaction is reported for its amount exactly when both amounts are known
  // and differ, and for its status exactly when the amounts do not and the translated
  // status is known and differs.
  lemma MismatchKinds(runId: string, ours: seq<Attempt>, t: Transaction, j: nat, out: seq<Discrepancy>)
    requires TransactionReported(runId, ours, t, out)
    requires ReferenceOf(t) != "" && IsLastWith(ours, ReferenceOf(t), j)
    ensures out == [Discrepancy(runId, AmountMismatch, Some(t), Some(ours[j]))] <==> AmountsDisagree(t, ours[j])
    ensures out == [Discrepancy(runId, StatusMismatch, Some(t), Some(ours[j]))] <==>
            !AmountsDisagree(t, ours[j]) && StatusesDisagree(t, ours[j])
    ensures out == [] <==> !AmountsDisagree(t, ours[j]) && !StatusesDisagree(t, ours[j])
  {
    CompareDecides(t, ours[j]);
    hide Compare;
  }

  lemma CompareDecides(t: Transaction, a: Attempt)
    ensures Compare(t, a) ==
            if AmountsDisagree(t, a) then Some(AmountMismatch)
            else if StatusesDisagree(t, a) then Some(StatusMismatch) else None
  {
    if t.amountMinor.Some? && a.invoiceAmount.Some? {
      var x, y := t.amountMinor.value, a.invoiceAmount.value;
      assert t.amountMinor == Some(x) && a.invoiceAmount == Some(y);
    }
  }

  // So the summary's discrepancy count is the number of unmatched transactions,
  // mismatching transactions and unmatched attempts together.
  lemma SummaryCounts(runId: string, txns: seq<Transaction>, ours: seq<Attempt>,
                      perTxn: seq<seq<Discrepancy>>, perAttempt: seq<seq<Discrepancy>>)
    requires IsReport(runId, txns, ours, perTxn, perAttempt)
    ensures |Flatten(perTxn) + Flatten(perAttempt)| ==
            |set k | 0 <= k < |txns| && UnmatchedTransaction(ours, txns[k])| +
            |set k | 0 <= k < |txns| && MismatchingTransaction(ours, txns[k])| +
            |set j | 0 <= j < |ours| && UnmatchedAttempt(txns, ours[j])|
  {
    hide TransactionReported, UnmatchedTransaction, MismatchingTransaction;
    ExactClassification(runId, txns, ours, perTxn, perAttempt);
    ForwardCounts(runId, txns, ours, perTxn, perAttempt);
    FlattenCounts(perTxn);
    FlattenCounts(perAttempt);
    assert (set j | 0 <= j < |perAttempt| && perAttempt[j] != []) ==
      (set j | 0 <= j < |ours| && UnmatchedAttempt(txns, ours[j]));
  }

  // The report is determined by the two lists.
  lemma ReportIsUnique(runId: string, txns: seq<Transaction>, ours: seq<Attempt>,
                       p1: seq<seq<Discrepancy>>, a1: seq<seq<Discrepancy>>,
                       p2: seq<seq<Discrepancy>>, a2: seq<seq<Discrepancy>>)
    requires IsReport(runId, txns, ours, p1, a1) && IsReport(runId, txns, ours, p2, a2)
    ensures p1 == p2 && a1 == a2
  {
    forall k | 0 <= k < |txns| ensures p1[k] == p2[k] {
      assert TransactionReported(runId, ours, txns[k], p1[k]);
      assert TransactionReported(runId, ours, txns[k], p2[k]);
    }
    forall j | 0 <= j < |ours| ensures a1[j] == a2[j] {
      assert AttemptReported(runId, txns, ours[j], a1[j]);
      assert AttemptReported(runId, txns, ours[j], a2[j]);
    }
  }

  // When the provider cannot be reached the run continues with no transactions:
  // every attempt that has a reference is then reported as missing at the provider.
  lemma OutageReportsEveryAttempt(runId: string, ours: seq<Attempt>,
                                  perTxn: seq<seq<Discrepancy>>, perAttempt: seq<seq<Discrepancy>>)
    requires IsReport(runId, [], ours, perTxn, perAttempt)
    ensures |Flatten(perTxn) + Flatten(perAttempt)| == |set j | 0 <= j < |ours| && ours[j].reference != ""|
  {
    ExactClassification(runId, [], ours, perTxn, perAttempt);
    assert perTxn == [] && Flatten(perTxn) == [];
    FlattenCounts(perAttempt);
    assert (set j | 0 <= j < |perAttempt| && perAttempt[j] != []) ==
      (set j | 0 <= j < |ours| && ours[j].reference != "");
  }

  // ---------------------------------------------------------------------- paging

  datatype Page = Rows(rows: seq<Transaction>) | ProviderError

  const PAGE_SIZE := 100

  // The cursor of the i-th call is the id of the last row of the page before it.
  function CursorAt(fetch: (nat, Option<string>) -> Page, i: nat): Option<string> {
    if i == 0 then None
    else
      var previous := fetch(i - 1, CursorAt(fetch, i - 1));
      if previous.Rows? && previous.rows != [] then Some(previous.rows[|previous.rows| - 1].id) else None
  }

  function PageAt(fetch: (nat, Option<string>) -> Page, i: nat): Page {
    fetch(i, CursorAt(fetch, i))
  }

  // The rows of the first n pages.
  function FirstPages(fetch: (nat, Option<string>) -> Page, n: nat): seq<Transaction> {
    if n == 0 then []
    else FirstPages(fetch, n - 1) + (if PageAt(fetch, n - 1).Rows? then PageAt(fetch, n - 1).rows else [])
  }

  // Pages are read until one is short, empty or an error, or enough rows have
  // arrived: every page before the last one was full, and fewer than the maximum had
  // arrived before it. An error discards everything.
  ghost predicate IsFetched(fetch: (nat, Option<string>) -> Page, maximum: int, txns: seq<Transaction>, calls: nat) {
    && (calls == 0 <==> maximum <= 0)
    && (forall i :: 0 <= i < calls - 1 ==> PageAt(fetch, i).Rows? && |PageAt(fetch, i).rows| >= PAGE_SIZE)
    && (calls == 0 ==> txns == [])
    && (calls > 0 ==>
          && |FirstPages(fetch, calls - 1)| < maximum
          && match PageAt(fetch, calls - 1)
             case ProviderError => txns == []
             case Rows(last) =>
               var all := FirstPages(fetch, calls);
               && txns == (if |all| <= maximum then all else all[..maximum])
               && (|last| < PAGE_SIZE || |all| >= maximum))
  }

  lemma NoPages(fetch: (nat, Option<string>) -> Page)
    ensures FirstPages(fetch, 0) == [] && CursorAt(fetch, 0) == None
  {}

  lemma OneMorePage(fetch: (nat, Option<string>) -> Page, n: nat)
    ensures var page := PageAt(fetch, n);
            && FirstPages(fetch, n + 1) == FirstPages(fetch, n) + (if page.Rows? then page.rows else [])
            && CursorAt(fetch, n + 1) ==
                 (if page.Rows? && page.rows != [] then Some(page.rows[|page.rows| - 1].id) else None)
  {}

  // _fetch_all_nomba_transactions
  method FetchAll(fetch: (nat, Option<string>) -> Page, maximum: int)
    returns (txns: seq<Transaction>, calls: nat)
    ensures IsFetched(fetch, maximum, txns, calls)
  {
    hide CursorAt, FirstPages;
    NoPages(fetch);
    txns, calls := [], 0;
    var cursor: Option<string> := None;
    while |txns| < maximum
      invariant txns == FirstPages(fetch, calls)
      invariant cursor == CursorAt(fetch, calls)
      invariant calls > 0 ==> PageAt(fetch, calls - 1).Rows? && |FirstPages(fetch, calls - 1)| < maximum
      invariant forall i :: 0 <= i < calls ==> PageAt(fetch, i).Rows? && |PageAt(fetch, i).rows| >= PAGE_SIZE
      decreases maximum - |txns|
    {
      var page := fetch(calls, cursor);
      OneMorePage(fetch, calls);
      calls := calls + 1;
      if page.ProviderError? {
        return [], calls;
      }
      if page.rows == [] {
        break;
      }
      txns := txns + page.rows;
      if |page.rows| < PAGE_SIZE {
        break;
      }
      cursor := Some(page.rows[|page.rows| - 1].id);
    }
    if |txns| > maximum && maximum >= 0 {
      txns := txns[..maximum];
    }
  }

  // ---------------------------------------------------------------- whole runs

  // The rows of other runs, in order.
  function OtherRuns(rows: seq<Discrepancy>, runId: string): seq<Discrepancy> {
    if rows == [] then []
    else
      var n := |rows| - 1;
      OtherRuns(rows[..n], runId) + (if rows[n].runId == runId then [] else [rows[n]])
  }

  lemma {:induction false} OtherRunsOfSum(a: seq<Discrepancy>, b: seq<Discrepancy>, runId: string)
    ensures OtherRuns(a + b, runId) == OtherRuns(a, runId) + OtherRuns(b, runId)
    decreases |b|
  {
    if b == [] {
      assert a + b == a;
    } else {
      assert (a + b)[..|a + b| - 1] == a + b[..|b| - 1];
      OtherRunsOfSum(a, b[..|b| - 1], runId);
    }
  }

  lemma {:induction false} OtherRunsTwice(rows: seq<Discrepancy>, runId: string)
    ensures OtherRuns(OtherRuns(rows, runId), runId) == OtherRuns(rows, runId)
  {
    if rows != [] {
      var n := |rows| - 1;
      OtherRunsTwice(rows[..n], runId);
      OtherRunsOfSum(OtherRuns(rows[..n], runId), if rows[n].runId == runId then [] else [rows[n]], runId);
      assert [rows[n]][..0] == [];
    }
  }

  lemma {:induction false} OwnRunOnly(rows: seq<Discrepancy>, runId: string)
    requires forall d :: d in rows ==> d.runId == runId
    ensures OtherRuns(rows, runId) == []
  {
    if rows != [] { OwnRunOnly(rows[..|rows| - 1], runId); }
  }

  lemma {:induction false} FlattenBelongs(parts: seq<seq<Discrepancy>>, runId: string)
    requires forall k, d :: 0 <= k < |parts| && d in parts[k] ==> d.runId == runId
    ensures forall d :: d in Flatten(parts) ==> d.runId == runId
  {
    if parts != [] { FlattenBelongs(parts[..|parts| - 1], runId); }
  }

  lemma ReportBelongsToRun(runId: string, txns: seq<Transaction>, ours: seq<Attempt>,
                           perTxn: seq<seq<Discrepancy>>, perAttempt: seq<seq<Discrepancy>>)
    requires IsReport(runId, txns, ours, perTxn, perAttempt)
    ensures forall d :: d in Flatten(perTxn) + Flatten(perAttempt) ==> d.runId == runId
  {
    forall k, d | 0 <= k < |perTxn| && d in perTxn[k] ensures d.runId == runId {
      assert TransactionReported(runId, ours, txns[k], perTxn[k]);
    }
    forall j, d | 0 <= j < |perAttempt| && d in perAttempt[j] ensures d.runId == runId {
      assert AttemptReported(runId, txns, ours[j], perAttempt[j]);
    }
    FlattenBelongs(perTxn, runId);
    FlattenBelongs(perAttempt, runId);
  }

  // Running the same window again over the same data replaces its rows by equal
  // ones and leaves the rows of every other run alone.
  lemma RerunIsIdempotent(table: seq<Discrepancy>, runId: string, txns: seq<Transaction>, ours: seq<Attempt>,
                          p1: seq<seq<Discrepancy>>, a1: seq<seq<Discrepancy>>,
                          p2: seq<seq<Discrepancy>>, a2: seq<seq<Discrepancy>>)
    requires IsReport(runId, txns, ours, p1, a1) && IsReport(runId, txns, ours, p2, a2)
    ensures var once := OtherRuns(table, runId) + (Flatten(p1) + Flatten(a1));
            OtherRuns(once, runId) + (Flatten(p2) + Flatten(a2)) == once
  {
    hide IsReport, OtherRuns, Flatten;
    ReportIsUnique(runId, txns, ours, p1, a1, p2, a2);
    ReportBelongsToRun(runId, txns, ours, p1, a1);
    var report := Flatten(p1) + Flatten(a1);
    OtherRunsOfSum(OtherRuns(table, runId), report, runId);
    OtherRunsTwice(table, runId);
    OwnRunOnly(report, runId);
    assert OtherRuns(table, runId) + [] == OtherRuns(table, runId);
  }

  class DiscrepancyTable {
    var rows: seq<Discrepancy>

    // run_reconciliation
    method Run(runId: string, fetch: (nat, Option<string>) -> Page, maximum: int, ours: seq<Attempt>)
      returns (summary: Summary, ghost txns: seq<Transaction>, ghost calls: nat,
               ghost perTxn: seq<seq<Discrepancy>>, ghost perAttempt: seq<seq<Discrepancy>>)
      modifies this
      ensures IsFetched(fetch, maximum, txns, calls)
      ensures IsReport(runId, txns, ours, perTxn, perAttempt)
      ensures rows == OtherRuns(old(rows), runId) + (Flatten(perTxn) + Flatten(perAttempt))
      ensures summary == Summary(|txns|, |ours|, |Matched(txns, ours)|, |Flatten(perTxn) + Flatten(perAttempt)|)
    {
      var kept := [];
      for k := 0 to |rows|
        invariant rows == old(rows) && kept == OtherRuns(rows[..k], runId)
      {
        assert rows[..k + 1][..k] == rows[..k];
        if rows[k].runId != runId { kept := kept + [rows[k]]; }
      }
      assert rows[..|rows|] == rows;
      var fetched, made := FetchAll(fetch, maximum);
      var report, matched;
      report, matched, perTxn, perAttempt := Classify(runId, fetched, ours);
      rows := kept + report;
      txns, calls := fetched, made;
      summary := Summary(|fetched|, |ours|, matched, |report|);
    }
  }
}
