/** The read-only side of the payments page: what a milk delivery is worth, the views
    of milk logs and feed deductions the page keeps, a farmer's balance, the page
    totals, and the merged transaction list. */
module PaymentViews {
  import opened Basics
  import opened Records

  /** `pricePerLiter`: the price paid per liter of milk. */
  const PricePerLiter: int := 45

  /** The `amount` the page attaches to a milk log, `(quantity ?? 0) * pricePerLiter`;
      the settlement's `(quantity || 0) * pricePerLiter` is the same number. */
  function MilkValue(log: MilkLog): (v: int)
    ensures log.quantity.None? ==> v == 0
    ensures OrZero(log.quantity) >= 0 ==> v >= 0
    ensures v % PricePerLiter == 0
  {
    OrZero(log.quantity) * PricePerLiter
  }

  /** No delivery in the list has a negative quantity. */
  predicate NonNegativeQuantities(logs: seq<MilkLog>) {
    forall l :: l in logs ==> OrZero(l.quantity) >= 0
  }

  /** Sum of `amount` over a list of milk logs. */
  function MilkTotal(logs: seq<MilkLog>): (total: int)
    ensures NonNegativeQuantities(logs) ==> total >= 0
  {
    if logs == [] then 0 else MilkValue(logs[0]) + MilkTotal(logs[1..])
  }

  /** Liters delivered in a list of milk logs, a missing quantity counting as 0. */
  function Liters(logs: seq<MilkLog>): int {
    if logs == [] then 0 else OrZero(logs[0].quantity) + Liters(logs[1..])
  }

  /** A list of deliveries is worth its liters at the fixed price. */
  lemma {:induction false} MilkTotalIsLitersTimesPrice(logs: seq<MilkLog>)
    ensures MilkTotal(logs) == PricePerLiter * Liters(logs)
  {
    if logs != [] {
      MilkTotalIsLitersTimesPrice(logs[1..]);
    }
  }

  lemma {:induction false} MilkTotalAppend(a: seq<MilkLog>, b: seq<MilkLog>)
    ensures MilkTotal(a + b) == MilkTotal(a) + MilkTotal(b)
  {
    if a == [] {
      assert a + b == b;
    } else {
      assert (a + b)[0] == a[0];
      assert (a + b)[1..] == a[1..] + b;
      MilkTotalAppend(a[1..], b);
    }
  }

  /** The `where` clauses on `farmerId` and `status` of a milk-log query; None leaves
      that field unfiltered. */
  predicate LogSelected(log: MilkLog, farmer: Option<string>, status: Option<MilkStatus>) {
    (farmer.None? || log.farmerId == farmer.value) && (status.None? || log.status == status.value)
  }

  /** The milk logs a query with these filters returns, in collection order. */
  function LogsWhere(logs: seq<MilkLog>, farmer: Option<string>, status: Option<MilkStatus>): (r: seq<MilkLog>)
    ensures |r| <= |logs|
    ensures forall l :: l in r <==> l in logs && LogSelected(l, farmer, status)
  {
    if logs == [] then []
    else if LogSelected(logs[0], farmer, status) then [logs[0]] + LogsWhere(logs[1..], farmer, status)
    else LogsWhere(logs[1..], farmer, status)
  }

  /** What one log adds to the total of a selection. */
  function Contribution(log: MilkLog, farmer: Option<string>, status: Option<MilkStatus>): int {
    if LogSelected(log, farmer, status) then MilkValue(log) else 0
  }

  lemma SelectedTotalUnfold(logs: seq<MilkLog>, farmer: Option<string>, status: Option<MilkStatus>)
    requires logs != []
    ensures MilkTotal(LogsWhere(logs, farmer, status)) ==
            Contribution(logs[0], farmer, status) + MilkTotal(LogsWhere(logs[1..], farmer, status))
  {
    if LogSelected(logs[0], farmer, status) {
      MilkTotalAppend([logs[0]], LogsWhere(logs[1..], farmer, status));
    }
  }

  /** Replacing one log changes the total of a selection by the difference of that
      log's contributions. */
  lemma {:induction false} SelectedTotalUpdate(logs: seq<MilkLog>, k: nat, log: MilkLog,
                                               farmer: Option<string>, status: Option<MilkStatus>)
    requires k < |logs|
    ensures MilkTotal(LogsWhere(logs[k := log], farmer, status)) ==
            MilkTotal(LogsWhere(logs, farmer, status)) - Contribution(logs[k], farmer, status)
            + Contribution(log, farmer, status)
  {
    SelectedTotalUnfold(logs, farmer, status);
    SelectedTotalUnfold(logs[k := log], farmer, status);
    if k == 0 {
      assert logs[k := log][1..] == logs[1..];
    } else {
      assert logs[k := log][1..] == logs[1..][k - 1 := log];
      SelectedTotalUpdate(logs[1..], k - 1, log, farmer, status);
    }
  }

  /** The page's filter on a field is no coarser than the later one on the same field. */
  predicate Covers<T(==)>(inner: Option<T>, outer: Option<T>) {
    inner.None? || inner == outer
  }

  /** Filtering the page's view again for a farmer and status gives the direct query
      for that farmer and status, as long as the page's own filters let those logs
      through. */
  lemma {:induction false} LogsWhereNarrowing(logs: seq<MilkLog>, viewFarmer: Option<string>, viewStatus: Option<MilkStatus>,
                                              farmer: Option<string>, status: Option<MilkStatus>)
    requires Covers(viewFarmer, farmer) && Covers(viewStatus, status)
    ensures LogsWhere(LogsWhere(logs, viewFarmer, viewStatus), farmer, status) == LogsWhere(logs, farmer, status)
  {
    if logs != [] {
      LogsWhereNarrowing(logs[1..], viewFarmer, viewStatus, farmer, status);
      if LogSelected(logs[0], viewFarmer, viewStatus) {
        var inner := LogsWhere(logs, viewFarmer, viewStatus);
        assert inner[0] == logs[0] && inner[1..] == LogsWhere(logs[1..], viewFarmer, viewStatus);
      }
    }
  }

  /** The `logs` state: the milk logs the page's query returns (the date-window
      filter is not modelled). */
  function MilkLogView(milkLogs: seq<MilkLog>, selectedFarmer: Option<string>, statusFilter: Option<MilkStatus>): seq<MilkLog> {
    LogsWhere(milkLogs, selectedFarmer, statusFilter)
  }

  // ----- Feed deductions -----

  /** `Math.abs(ded.amount || 0)` */
  function DeductionValue(p: Payment): (v: int)
    ensures v >= 0 && (v == 0 <==> OrZero(p.amount) == 0)
  {
    Abs(OrZero(p.amount))
  }

  /** Sum of the absolute amounts of a list of deductions. */
  function DeductionTotal(ds: seq<Payment>): (total: int)
    ensures total >= 0
    ensures total == 0 <==> forall k :: 0 <= k < |ds| ==> OrZero(ds[k].amount) == 0
  {
    if ds == [] then 0 else DeductionValue(ds[0]) + DeductionTotal(ds[1..])
  }

  /** A deduction's status is not 'processed'. */
  predicate Active(p: Payment) {
    p.status != Processed
  }

  /** The `feedDeductions` state: the payments of type 'feed_deduction', restricted to
      the selected farmer when one is selected. */
  predicate InDeductionView(p: Payment, selectedFarmer: Option<string>) {
    p.kind == FeedDeduction && (selectedFarmer.None? || p.farmerId == selectedFarmer.value)
  }

  function FeedDeductionView(payments: seq<Payment>, selectedFarmer: Option<string>): (r: seq<Payment>)
    ensures |r| <= |payments|
    ensures forall p :: p in r <==> p in payments && InDeductionView(p, selectedFarmer)
  {
    if payments == [] then []
    else if InDeductionView(payments[0], selectedFarmer) then [payments[0]] + FeedDeductionView(payments[1..], selectedFarmer)
    else FeedDeductionView(payments[1..], selectedFarmer)
  }

  /** The filters the page applies to its deduction view: a farmer, and (when
      `activeOnly`) status not 'processed'. */
  predicate DeductionSelected(p: Payment, farmer: Option<string>, activeOnly: bool) {
    (farmer.None? || p.farmerId == farmer.value) && (!activeOnly || Active(p))
  }

  function DeductionsWhere(ds: seq<Payment>, farmer: Option<string>, activeOnly: bool): (r: seq<Payment>)
    ensures |r| <= |ds|
    ensures forall p :: p in r <==> p in ds && DeductionSelected(p, farmer, activeOnly)
  {
    if ds == [] then []
    else if DeductionSelected(ds[0], farmer, activeOnly) then [ds[0]] + DeductionsWhere(ds[1..], farmer, activeOnly)
    else DeductionsWhere(ds[1..], farmer, activeOnly)
  }

  /** Excluding processed deductions can only lower a total. */
  lemma {:induction false} ActiveTotalAtMostTotal(ds: seq<Payment>, farmer: Option<string>)
    ensures DeductionTotal(DeductionsWhere(ds, farmer, true)) <= DeductionTotal(DeductionsWhere(ds, farmer, false))
  {
    if ds != [] {
      ActiveTotalAtMostTotal(ds[1..], farmer);
      var all := DeductionsWhere(ds, farmer, false);
      var active := DeductionsWhere(ds, farmer, true);
      if DeductionSelected(ds[0], farmer, false) {
        assert all[0] == ds[0] && all[1..] == DeductionsWhere(ds[1..], farmer, false);
      }
      if DeductionSelected(ds[0], farmer, true) {
        assert active[0] == ds[0] && active[1..] == DeductionsWhere(ds[1..], farmer, true);
      }
    }
  }

  /** The deductions of the view that belong to a farmer are that farmer's deductions,
      whether or not the page is filtered to that farmer. */
  lemma {:induction false} DeductionViewNarrowing(payments: seq<Payment>, selectedFarmer: Option<string>,
                                                  farmer: string, activeOnly: bool)
    requires Covers(selectedFarmer, Some(farmer))
    ensures DeductionsWhere(FeedDeductionView(payments, selectedFarmer), Some(farmer), activeOnly) ==
            DeductionsWhere(FeedDeductionView(payments, None), Some(farmer), activeOnly)
  {
    if payments != [] {
      DeductionViewNarrowing(payments[1..], selectedFarmer, farmer, activeOnly);
      var v := FeedDeductionView(payments, selectedFarmer);
      var w := FeedDeductionView(payments, None);
      if InDeductionView(payments[0], None) {
        assert w[0] == payments[0] && w[1..] == FeedDeductionView(payments[1..], None);
      }
      if InDeductionView(payments[0], selectedFarmer) {
        assert v[0] == payments[0] && v[1..] == FeedDeductionView(payments[1..], selectedFarmer);
      }
    }
  }

  // ----- Balances and totals -----

  /** What `calculateFarmerBalance` returns. */
  datatype FarmerBalance = FarmerBalance(
    totalPending: int,
    totalPaid: int,
    totalDeductions: int,
    netPayable: int,
    hasPending: bool,
    hasDeductions: bool)

  /** `calculateFarmerBalance(farmerId)` over the page's log and deduction views:
      pending and paid milk value of the farmer, and the farmer's deductions that are
      not yet processed. */
  function CalculateFarmerBalance(logs: seq<MilkLog>, deductions: seq<Payment>, farmerId: string): (b: FarmerBalance)
    ensures b.netPayable == b.totalPending - b.totalDeductions
    ensures b.hasPending <==> b.totalPending > 0
    ensures b.hasDeductions <==> b.totalDeductions > 0
    ensures b.totalDeductions >= 0
    ensures NonNegativeQuantities(logs) ==> b.totalPending >= 0 && b.totalPaid >= 0
  {
    var pending := MilkTotal(LogsWhere(logs, Some(farmerId), Some(MilkPending)));
    var paid := MilkTotal(LogsWhere(logs, Some(farmerId), Some(MilkPaid)));
    var owed := DeductionTotal(DeductionsWhere(deductions, Some(farmerId), true));
    FarmerBalance(pending, paid, owed, pending - owed, pending > 0, owed > 0)
  }

  /** A farmer's card shows the same balance whether the page lists every farmer or is
      filtered to that one. */
  lemma BalanceIgnoresFarmerFilter(milkLogs: seq<MilkLog>, payments: seq<Payment>, statusFilter: Option<MilkStatus>,
                                   farmerId: string)
    ensures CalculateFarmerBalance(MilkLogView(milkLogs, Some(farmerId), statusFilter),
                                   FeedDeductionView(payments, Some(farmerId)), farmerId) ==
            CalculateFarmerBalance(MilkLogView(milkLogs, None, statusFilter),
                                   FeedDeductionView(payments, None), farmerId)
  {
    if statusFilter.None? || statusFilter == Some(MilkPending) {
      LogsWhereNarrowing(milkLogs, Some(farmerId), statusFilter, Some(farmerId), Some(MilkPending));
      LogsWhereNarrowing(milkLogs, None, statusFilter, Some(farmerId), Some(MilkPending));
    } else {
      PendingFilteredOut(milkLogs, Some(farmerId), statusFilter, farmerId, MilkPending);
      PendingFilteredOut(milkLogs, None, statusFilter, farmerId, MilkPending);
    }
    if statusFilter.None? || statusFilter == Some(MilkPaid) {
      LogsWhereNarrowing(milkLogs, Some(farmerId), statusFilter, Some(farmerId), Some(MilkPaid));
      LogsWhereNarrowing(milkLogs, None, statusFilter, Some(farmerId), Some(MilkPaid));
    } else {
      PendingFilteredOut(milkLogs, Some(farmerId), statusFilter, farmerId, MilkPaid);
      PendingFilteredOut(milkLogs, None, statusFilter, farmerId, MilkPaid);
    }
    DeductionViewNarrowing(payments, Some(farmerId), farmerId, true);
  }

  /** A view filtered to one status holds no log of another status. */
  lemma {:induction false} PendingFilteredOut(milkLogs: seq<MilkLog>, viewFarmer: Option<string>,
                                              statusFilter: Option<MilkStatus>, farmerId: string, status: MilkStatus)
    requires statusFilter.Some? && statusFilter != Some(status)
    ensures LogsWhere(MilkLogView(milkLogs, viewFarmer, statusFilter), Some(farmerId), Some(status)) == []
  {
    if milkLogs != [] {
      PendingFilteredOut(milkLogs[1..], viewFarmer, statusFilter, farmerId, status);
      if LogSelected(milkLogs[0], viewFarmer, statusFilter) {
        var view := MilkLogView(milkLogs, viewFarmer, statusFilter);
        assert view[0] == milkLogs[0] && view[1..] == MilkLogView(milkLogs[1..], viewFarmer, statusFilter);
      }
    }
  }

  /** What `calculateTotals` returns. */
  datatype Totals = Totals(
    totalMilkPaid: int,
    totalMilkPending: int,
    totalFeedDeductions: int,
    totalMilkValue: int,
    netPayable: int)

  /** `calculateTotals()` over the page's views. */
  function CalculateTotals(logs: seq<MilkLog>, deductions: seq<Payment>): (t: Totals)
    ensures t.totalMilkValue == t.totalMilkPaid + t.totalMilkPending
    ensures t.netPayable == t.totalMilkPending - t.totalFeedDeductions
    ensures t.totalFeedDeductions >= 0
    ensures NonNegativeQuantities(logs) ==> t.totalMilkPaid >= 0 && t.totalMilkPending >= 0
  {
    var paid := MilkTotal(LogsWhere(logs, None, Some(MilkPaid)));
    var pending := MilkTotal(LogsWhere(logs, None, Some(MilkPending)));
    var owed := DeductionTotal(DeductionsWhere(deductions, None, true));
    Totals(paid, pending, owed, paid + pending, pending - owed)
  }

  /** When every log is either pending or paid, the total milk value is the value of
      all logs in the view. */
  lemma {:induction false} MilkValueCoversPendingAndPaid(logs: seq<MilkLog>)
    requires forall k :: 0 <= k < |logs| ==> logs[k].status == MilkPending || logs[k].status == MilkPaid
    ensures MilkTotal(LogsWhere(logs, None, Some(MilkPaid))) + MilkTotal(LogsWhere(logs, None, Some(MilkPending))) ==
            MilkTotal(logs)
  {
    if logs != [] {
      SelectedTotalUnfold(logs, None, Some(MilkPaid));
      SelectedTotalUnfold(logs, None, Some(MilkPending));
      MilkValueCoversPendingAndPaid(logs[1..]);
    }
  }

  // ----- The merged transaction list -----

  /** An entry of `filteredTransactions`: a milk log (type 'milk_payment') or a feed
      deduction (type 'feed_deduction'). */
  datatype Transaction = MilkEntry(log: MilkLog) | FeedEntry(deduction: Payment)

  /** The `paymentType` selector; any other value lists everything, as "all" does. */
  datatype PaymentType = AllTypes | MilkOnly | FeedOnly

  function MilkEntries(logs: seq<MilkLog>): (r: seq<Transaction>)
    ensures |r| == |logs| && forall k :: 0 <= k < |logs| ==> r[k] == MilkEntry(logs[k])
  {
    if logs == [] then [] else [MilkEntry(logs[0])] + MilkEntries(logs[1..])
  }

  function FeedEntries(ds: seq<Payment>): (r: seq<Transaction>)
    ensures |r| == |ds| && forall k :: 0 <= k < |ds| ==> r[k] == FeedEntry(ds[k])
  {
    if ds == [] then [] else [FeedEntry(ds[0])] + FeedEntries(ds[1..])
  }

  predicate KeepsType(t: Transaction, paymentType: PaymentType) {
    match paymentType
    case MilkOnly => t.MilkEntry?
    case FeedOnly => t.FeedEntry?
    case AllTypes => true
  }

  function KeepType(ts: seq<Transaction>, paymentType: PaymentType): (r: seq<Transaction>)
    ensures forall t :: t in r <==> t in ts && KeepsType(t, paymentType)
  {
    if ts == [] then []
    else if KeepsType(ts[0], paymentType) then [ts[0]] + KeepType(ts[1..], paymentType)
    else KeepType(ts[1..], paymentType)
  }

  /** `filteredTransactions`: every log of the view, then the deductions of the view
      that are not processed, restricted by the type selector. */
  function FilteredTransactions(logs: seq<MilkLog>, deductions: seq<Payment>, paymentType: PaymentType): seq<Transaction> {
    KeepType(MilkEntries(logs) + FeedEntries(DeductionsWhere(deductions, None, true)), paymentType)
  }

  lemma {:induction false} KeepTypeAppend(a: seq<Transaction>, b: seq<Transaction>, paymentType: PaymentType)
    ensures KeepType(a + b, paymentType) == KeepType(a, paymentType) + KeepType(b, paymentType)
  {
    if a == [] {
      assert a + b == b;
    } else {
      assert (a + b)[0] == a[0];
      assert (a + b)[1..] == a[1..] + b;
      KeepTypeAppend(a[1..], b, paymentType);
      if KeepsType(a[0], paymentType) {
        AppendAssoc([a[0]], KeepType(a[1..], paymentType), KeepType(b, paymentType));
      }
    }
  }

  /** The type filter keeps a list whose entries all pass. */
  lemma {:induction false} KeepAll(ts: seq<Transaction>, paymentType: PaymentType)
    requires forall k :: 0 <= k < |ts| ==> KeepsType(ts[k], paymentType)
    ensures KeepType(ts, paymentType) == ts
  {
    if ts != [] {
      forall k | 0 <= k < |ts[1..]| ensures KeepsType(ts[1..][k], paymentType) {
        assert ts[1..][k] == ts[k + 1];
      }
      KeepAll(ts[1..], paymentType);
      assert ts == [ts[0]] + ts[1..];
    }
  }

  /** The type filter empties a list whose entries all fail. */
  lemma {:induction false} KeepNone(ts: seq<Transaction>, paymentType: PaymentType)
    requires forall k :: 0 <= k < |ts| ==> !KeepsType(ts[k], paymentType)
    ensures KeepType(ts, paymentType) == []
  {
    if ts != [] {
      forall k | 0 <= k < |ts[1..]| ensures !KeepsType(ts[1..][k], paymentType) {
        assert ts[1..][k] == ts[k + 1];
      }
      KeepNone(ts[1..], paymentType);
    }
  }

  /** "milk" lists exactly the view's logs, "feed" exactly its unprocessed deductions,
      "all" both, logs first. */
  lemma FilteredTransactionsContents(logs: seq<MilkLog>, deductions: seq<Payment>)
    ensures FilteredTransactions(logs, deductions, MilkOnly) == MilkEntries(logs)
    ensures FilteredTransactions(logs, deductions, FeedOnly) == FeedEntries(DeductionsWhere(deductions, None, true))
    ensures FilteredTransactions(logs, deductions, AllTypes) ==
            FilteredTransactions(logs, deductions, MilkOnly) + FilteredTransactions(logs, deductions, FeedOnly)
  {
    var milk := MilkEntries(logs);
    var feed := FeedEntries(DeductionsWhere(deductions, None, true));
    KeepTypeAppend(milk, feed, MilkOnly);
    KeepTypeAppend(milk, feed, FeedOnly);
    KeepTypeAppend(milk, feed, AllTypes);
    KeepAll(milk, MilkOnly);
    KeepNone(milk, FeedOnly);
    KeepAll(milk, AllTypes);
    KeepNone(feed, MilkOnly);
    KeepAll(feed, FeedOnly);
    KeepAll(feed, AllTypes);
  }

  lemma FeedEntryIn(ds: seq<Payment>, p: Payment)
    ensures FeedEntry(p) in FeedEntries(ds) <==> p in ds
  {
    var r := FeedEntries(ds);
    if p in ds {
      var k :| 0 <= k < |ds| && ds[k] == p;
      assert r[k] == FeedEntry(p);
    }
    if FeedEntry(p) in r {
      var k :| 0 <= k < |r| && r[k] == FeedEntry(p);
      assert ds[k] == p;
    }
  }

  lemma NoFeedEntryAmongLogs(logs: seq<MilkLog>, p: Payment)
    ensures FeedEntry(p) !in MilkEntries(logs)
  {
  }

  /** A deduction is listed under "all" or "feed" exactly when it is in the view and
      not processed. */
  lemma FeedEntryListedIffActive(logs: seq<MilkLog>, deductions: seq<Payment>, paymentType: PaymentType, p: Payment)
    requires paymentType != MilkOnly
    ensures FeedEntry(p) in FilteredTransactions(logs, deductions, paymentType) <==> p in deductions && Active(p)
  {
    FilteredTransactionsContents(logs, deductions);
    FeedEntryIn(DeductionsWhere(deductions, None, true), p);
    NoFeedEntryAmongLogs(logs, p);
  }
}
