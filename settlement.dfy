/** The writing side of the payments page: settling a farmer's pending milk against the
    farmer's feed deductions (`processPayment`), applying outstanding deductions to
    pending milk for every farmer (`autoDeductFeedCosts`), and marking a single
    delivery paid (`markAsPaid`). */
module Settlement {
  import opened Basics
  import opened Records
  import opened PaymentViews

  // ----- Record updates shared by the batches -----

  /** The ids of a list of payment documents. */
  function IdsOf(ds: seq<Payment>): (ids: set<string>)
    ensures forall p :: p in ds ==> p.id in ids
    ensures forall id :: id in ids ==> exists p :: p in ds && p.id == id
  {
    set p | p in ds :: p.id
  }

  /** A batch update to 'processed' of the document, if its id is one of `ids`;
      `appliedTo`, when given, is written as `appliedToPayment`. */
  function Stamp(p: Payment, ids: set<string>, appliedTo: Option<string>): Payment {
    if p.id in ids then p.(status := Processed, appliedToPayment := if appliedTo.Some? then appliedTo else p.appliedToPayment)
    else p
  }

  /** Every document whose id is in `ids` becomes 'processed'; no other changes. */
  function MarkProcessed(payments: seq<Payment>, ids: set<string>, appliedTo: Option<string>): (r: seq<Payment>)
    ensures |r| == |payments|
    ensures forall k :: 0 <= k < |payments| && payments[k].id in ids ==>
              r[k].status == Processed && r[k].id == payments[k].id && r[k].kind == payments[k].kind &&
              r[k].farmerId == payments[k].farmerId && r[k].amount == payments[k].amount
    ensures forall k :: 0 <= k < |payments| && payments[k].id !in ids ==> r[k] == payments[k]
    ensures appliedTo.Some? ==> forall k :: 0 <= k < |payments| && payments[k].id in ids ==> r[k].appliedToPayment == appliedTo
  {
    seq(|payments|, k requires 0 <= k < |payments| => Stamp(payments[k], ids, appliedTo))
  }

  /** The updates of a batch to the deduction documents, one document at a time. */
  method MarkProcessedInPlace(db: Database, ids: set<string>, appliedTo: Option<string>)
    modifies db`payments
    ensures db.payments == MarkProcessed(old(db.payments), ids, appliedTo)
  {
    for k := 0 to |db.payments|
      invariant |db.payments| == |old(db.payments)|
      invariant forall j :: 0 <= j < k ==> db.payments[j] == Stamp(old(db.payments)[j], ids, appliedTo)
      invariant forall j :: k <= j < |db.payments| ==> db.payments[j] == old(db.payments)[j]
    {
      if db.payments[k].id in ids {
        var deduction := db.payments[k];
        db.payments := db.payments[k := deduction.(status := Processed,
                                                   appliedToPayment := if appliedTo.Some? then appliedTo else deduction.appliedToPayment)];
      }
    }
  }

  // ----- processPayment -----

  datatype SettlementError = FarmerNotFound | NoPendingMilk | NoPaymentNeeded(feedDeductions: int, pendingMilk: int)

  /** The two collections a settlement writes. */
  datatype Ledger = Ledger(milkLogs: seq<MilkLog>, payments: seq<Payment>)

  datatype SettlementStep = SettlementStep(ledger: Ledger, outcome: Outcome<SettlementError>)

  function LedgerOf(db: Database): Ledger
    reads db
  {
    Ledger(db.milkLogs, db.payments)
  }

  predicate KnownFarmer(farmers: seq<Farmer>, farmerId: string) {
    exists k :: 0 <= k < |farmers| && farmers[k].id == farmerId
  }

  /** The settlement's query: the farmer's pending logs in the whole collection. */
  function PendingMilk(milkLogs: seq<MilkLog>, farmerId: string): seq<MilkLog> {
    LogsWhere(milkLogs, Some(farmerId), Some(MilkPending))
  }

  /** The deductions a settlement charges, as written: every deduction of the farmer in
      the page's deduction view, whether processed or not. */
  function ChargedDeductions(payments: seq<Payment>, selectedFarmer: Option<string>, farmerId: string): seq<Payment> {
    DeductionsWhere(FeedDeductionView(payments, selectedFarmer), Some(farmerId), false)
  }

  /** `netAmount` of a settlement: pending milk value minus the charged deductions. */
  function SettlementNet(ledger: Ledger, selectedFarmer: Option<string>, farmerId: string): int {
    MilkTotal(PendingMilk(ledger.milkLogs, farmerId)) - DeductionTotal(ChargedDeductions(ledger.payments, selectedFarmer, farmerId))
  }

  /** A log after the batch: the farmer's pending logs become paid, with `paidAmount`
      the settled net. */
  function PaidLog(log: MilkLog, farmerId: string, net: int): MilkLog {
    if log.farmerId == farmerId && log.status == MilkPending then log.(status := MilkPaid, paidAmount := Some(net)) else log
  }

  function PayLogs(logs: seq<MilkLog>, farmerId: string, net: int): (r: seq<MilkLog>)
    ensures |r| == |logs|
    ensures forall k :: 0 <= k < |logs| && LogSelected(logs[k], Some(farmerId), Some(MilkPending)) ==>
              r[k].status == MilkPaid && r[k].paidAmount == Some(net) && r[k].id == logs[k].id &&
              r[k].farmerId == farmerId && r[k].quantity == logs[k].quantity
    ensures forall k :: 0 <= k < |logs| && !LogSelected(logs[k], Some(farmerId), Some(MilkPending)) ==> r[k] == logs[k]
  {
    seq(|logs|, k requires 0 <= k < |logs| => PaidLog(logs[k], farmerId, net))
  }

  /** The payment document the settlement adds. */
  function MilkPaymentRecord(paymentId: string, farmerId: string, pending: int, deductions: int): (p: Payment)
    ensures p.kind == MilkPayment && p.status == Completed && p.farmerId == farmerId
    ensures p.amount == p.netAmount && OrZero(p.netAmount) == OrZero(p.pendingMilkAmount) - OrZero(p.feedDeductions)
  {
    Payment(paymentId, farmerId, MilkPayment, Some(pending - deductions), None, Completed, None,
            Some(pending), Some(deductions), Some(pending - deductions))
  }

  /** `processPayment(farmerId)`. `paymentId` is the id the database assigns to the new
      payment document. Refused, with nothing written, when the farmer is unknown,
      has no pending milk, or the deductions leave nothing to pay; otherwise one batch
      pays the pending logs, adds the payment and stamps the charged deductions. */
  function Settle(farmers: seq<Farmer>, ledger: Ledger, selectedFarmer: Option<string>, farmerId: string,
                  paymentId: string): (step: SettlementStep)
    ensures step.outcome.Fail? ==> step.ledger == ledger
    ensures step.outcome == Fail(FarmerNotFound) <==> !KnownFarmer(farmers, farmerId)
    ensures step.outcome == Fail(NoPendingMilk) <==> KnownFarmer(farmers, farmerId) && PendingMilk(ledger.milkLogs, farmerId) == []
    ensures step.outcome.Pass? <==>
              KnownFarmer(farmers, farmerId) && PendingMilk(ledger.milkLogs, farmerId) != [] &&
              SettlementNet(ledger, selectedFarmer, farmerId) > 0
    ensures step.outcome.Pass? ==>
              var charged := ChargedDeductions(ledger.payments, selectedFarmer, farmerId);
              step.ledger.milkLogs == PayLogs(ledger.milkLogs, farmerId, SettlementNet(ledger, selectedFarmer, farmerId)) &&
              step.ledger.payments ==
                MarkProcessed(ledger.payments, IdsOf(charged), Some(paymentId)) +
                [MilkPaymentRecord(paymentId, farmerId, MilkTotal(PendingMilk(ledger.milkLogs, farmerId)), DeductionTotal(charged))]
  {
    if !KnownFarmer(farmers, farmerId) then SettlementStep(ledger, Fail(FarmerNotFound))
    else
      var pending := PendingMilk(ledger.milkLogs, farmerId);
      if |pending| == 0 then SettlementStep(ledger, Fail(NoPendingMilk))
      else
        var charged := ChargedDeductions(ledger.payments, selectedFarmer, farmerId);
        var totalPending := MilkTotal(pending);
        var totalDeductions := DeductionTotal(charged);
        var net := totalPending - totalDeductions;
        assert net == SettlementNet(ledger, selectedFarmer, farmerId);
        if net <= 0 then SettlementStep(ledger, Fail(NoPaymentNeeded(totalDeductions, totalPending)))
        else
          SettlementStep(Ledger(PayLogs(ledger.milkLogs, farmerId, net),
                                MarkProcessed(ledger.payments, IdsOf(charged), Some(paymentId)) +
                                [MilkPaymentRecord(paymentId, farmerId, totalPending, totalDeductions)]),
                         Pass)
  }

  /** The batch's updates to the farmer's pending logs, one document at a time. */
  method PayPendingLogs(db: Database, farmerId: string, netAmount: int)
    modifies db`milkLogs
    ensures db.milkLogs == PayLogs(old(db.milkLogs), farmerId, netAmount)
  {
    for k := 0 to |db.milkLogs|
      invariant |db.milkLogs| == |old(db.milkLogs)|
      invariant forall j :: 0 <= j < k ==> db.milkLogs[j] == PaidLog(old(db.milkLogs)[j], farmerId, netAmount)
      invariant forall j :: k <= j < |db.milkLogs| ==> db.milkLogs[j] == old(db.milkLogs)[j]
    {
      var milkLog := db.milkLogs[k];
      if milkLog.farmerId == farmerId && milkLog.status == MilkPending {
        db.milkLogs := db.milkLogs[k := milkLog.(status := MilkPaid, paidAmount := Some(netAmount))];
      }
    }
  }

  method ProcessPayment(db: Database, selectedFarmer: Option<string>, farmerId: string, paymentId: string)
    returns (outcome: Outcome<SettlementError>)
    modifies db`milkLogs, db`payments
    ensures SettlementStep(LedgerOf(db), outcome) == Settle(db.farmers, old(LedgerOf(db)), selectedFarmer, farmerId, paymentId)
  {
    var known := KnownFarmer(db.farmers, farmerId);
    if !known {
      return Fail(FarmerNotFound);
    }
    var pendingMilkLogs := PendingMilk(db.milkLogs, farmerId);
    if |pendingMilkLogs| == 0 {
      return Fail(NoPendingMilk);
    }
    var totalPendingAmount := MilkTotal(pendingMilkLogs);
    var farmerDeductions := ChargedDeductions(db.payments, selectedFarmer, farmerId);
    var totalFeedDeductions := DeductionTotal(farmerDeductions);
    var netAmount := totalPendingAmount - totalFeedDeductions;
    if netAmount <= 0 {
      return Fail(NoPaymentNeeded(totalFeedDeductions, totalPendingAmount));
    }
    ghost var before := LedgerOf(db);
    assert netAmount == SettlementNet(before, selectedFarmer, farmerId);
    PayPendingLogs(db, farmerId, netAmount);
    MarkProcessedInPlace(db, IdsOf(farmerDeductions), Some(paymentId));
    db.payments := db.payments + [MilkPaymentRecord(paymentId, farmerId, totalPendingAmount, totalFeedDeductions)];
    outcome := Pass;
    assert LedgerOf(db) == Settle(db.farmers, before, selectedFarmer, farmerId, paymentId).ledger;
  }

  /** Paying a farmer's pending logs leaves that farmer none pending. */
  lemma {:induction false} PayLogsLeavesNothingPending(logs: seq<MilkLog>, farmerId: string, net: int)
    ensures LogsWhere(PayLogs(logs, farmerId, net), Some(farmerId), Some(MilkPending)) == []
  {
    if logs != [] {
      var paid := PayLogs(logs, farmerId, net);
      assert paid[1..] == PayLogs(logs[1..], farmerId, net);
      PayLogsLeavesNothingPending(logs[1..], farmerId, net);
    }
  }

  /** After a settlement the farmer has no pending milk left, so settling again at once
      is refused; no other farmer's logs change. */
  lemma SettlementClearsPendingMilk(farmers: seq<Farmer>, ledger: Ledger, selectedFarmer: Option<string>,
                                    farmerId: string, paymentId: string, paymentId2: string)
    requires Settle(farmers, ledger, selectedFarmer, farmerId, paymentId).outcome.Pass?
    ensures var after := Settle(farmers, ledger, selectedFarmer, farmerId, paymentId).ledger;
            PendingMilk(after.milkLogs, farmerId) == [] &&
            Settle(farmers, after, selectedFarmer, farmerId, paymentId2).outcome == Fail(NoPendingMilk)
  {
    PayLogsLeavesNothingPending(ledger.milkLogs, farmerId, SettlementNet(ledger, selectedFarmer, farmerId));
  }

  /** The farmer's paid milk value grows by exactly the pending value the settlement
      cleared. */
  lemma {:induction false} PayLogsMovesPendingToPaid(logs: seq<MilkLog>, farmerId: string, net: int)
    ensures MilkTotal(LogsWhere(PayLogs(logs, farmerId, net), Some(farmerId), Some(MilkPaid))) ==
            MilkTotal(LogsWhere(logs, Some(farmerId), Some(MilkPaid))) + MilkTotal(LogsWhere(logs, Some(farmerId), Some(MilkPending)))
  {
    if logs != [] {
      var paid := PayLogs(logs, farmerId, net);
      assert paid[1..] == PayLogs(logs[1..], farmerId, net);
      PayLogsMovesPendingToPaid(logs[1..], farmerId, net);
      SelectedTotalUnfold(paid, Some(farmerId), Some(MilkPaid));
      SelectedTotalUnfold(logs, Some(farmerId), Some(MilkPaid));
      SelectedTotalUnfold(logs, Some(farmerId), Some(MilkPending));
    }
  }

  /** Every deduction a settlement charges ends up 'processed' and tied to the new
      payment, and the new payment's amount is the settled net. */
  lemma SettlementStampsChargedDeductions(farmers: seq<Farmer>, ledger: Ledger, selectedFarmer: Option<string>,
                                          farmerId: string, paymentId: string, k: nat)
    requires Settle(farmers, ledger, selectedFarmer, farmerId, paymentId).outcome.Pass?
    requires k < |ledger.payments| && ledger.payments[k] in ChargedDeductions(ledger.payments, selectedFarmer, farmerId)
    ensures var after := Settle(farmers, ledger, selectedFarmer, farmerId, paymentId).ledger.payments;
            |after| == |ledger.payments| + 1 &&
            after[k].status == Processed && after[k].appliedToPayment == Some(paymentId) &&
            after[|ledger.payments|].amount == Some(SettlementNet(ledger, selectedFarmer, farmerId)) &&
            SettlementNet(ledger, selectedFarmer, farmerId) > 0
  {
    var charged := ChargedDeductions(ledger.payments, selectedFarmer, farmerId);
    assert ledger.payments[k].id in IdsOf(charged);
  }

  /** As written, a settlement charges deductions that are already processed, so the
      net it pays is at most the `netPayable` the farmer's card shows (the card
      excludes processed deductions) when the page shows that farmer's logs unfiltered
      by status. */
  lemma SettlementNetAtMostDisplayed(ledger: Ledger, selectedFarmer: Option<string>, farmerId: string)
    requires Covers(selectedFarmer, Some(farmerId))
    ensures SettlementNet(ledger, selectedFarmer, farmerId) <=
            CalculateFarmerBalance(MilkLogView(ledger.milkLogs, selectedFarmer, None),
                                   FeedDeductionView(ledger.payments, selectedFarmer), farmerId).netPayable
  {
    LogsWhereNarrowing(ledger.milkLogs, selectedFarmer, None, Some(farmerId), Some(MilkPending));
    ActiveTotalAtMostTotal(FeedDeductionView(ledger.payments, selectedFarmer), Some(farmerId));
  }

  /** The example farmer's feed deduction of 100, not yet processed. */
  function ExampleDeduction(): Payment {
    Payment("d1", "f", FeedDeduction, Some(-100), Some("r1"), Completed, None, None, None, None)
  }

  /** A pending delivery of 10 liters by the example farmer. */
  function ExampleDelivery(id: string): MilkLog {
    MilkLog(id, "f", Some(10), MilkPending, None)
  }

  /** The first settlement of the example: 10 liters (450) less the deduction of 100
      pays 350 and stamps the deduction. */
  lemma FirstExampleSettlement()
    ensures var ledger := Ledger([ExampleDelivery("m1")], [ExampleDeduction()]);
            SettlementNet(ledger, None, "f") == 350 &&
            Settle([Farmer("f", "Wanjiku")], ledger, None, "f", "p1") ==
              SettlementStep(Ledger([ExampleDelivery("m1").(status := MilkPaid, paidAmount := Some(350))],
                                    [ExampleDeduction().(status := Processed, appliedToPayment := Some("p1")),
                                     MilkPaymentRecord("p1", "f", 450, 100)]),
                             Pass)
  {
    var farmers := [Farmer("f", "Wanjiku")];
    var d1 := ExampleDeduction();
    var m1 := ExampleDelivery("m1");
    var ledger := Ledger([m1], [d1]);
    assert KnownFarmer(farmers, "f") by { assert farmers[0].id == "f"; }
    assert [m1][1..] == [] && [d1][1..] == [];
    assert PendingMilk(ledger.milkLogs, "f") == [m1];
    assert ChargedDeductions(ledger.payments, None, "f") == [d1];
    assert MilkTotal([m1]) == 450 && DeductionTotal([d1]) == 100;
    assert IdsOf([d1]) == {"d1"};
    var first := Settle(farmers, ledger, None, "f", "p1");
    assert first.ledger.milkLogs == [m1.(status := MilkPaid, paidAmount := Some(350))];
    assert first.ledger.payments == [d1.(status := Processed, appliedToPayment := Some("p1")), MilkPaymentRecord("p1", "f", 450, 100)];
  }

  /** The second settlement of the example, after 10 more liters: the processed
      deduction is charged again, so 350 is paid while the card shows 450. */
  lemma SecondExampleSettlement()
    ensures var m1paid := ExampleDelivery("m1").(status := MilkPaid, paidAmount := Some(350));
            var d1done := ExampleDeduction().(status := Processed, appliedToPayment := Some("p1"));
            var delivered := Ledger([m1paid, ExampleDelivery("m2")], [d1done, MilkPaymentRecord("p1", "f", 450, 100)]);
            Settle([Farmer("f", "Wanjiku")], delivered, None, "f", "p2").outcome == Pass &&
            SettlementNet(delivered, None, "f") == 350 &&
            CalculateFarmerBalance(MilkLogView(delivered.milkLogs, None, None),
                                   FeedDeductionView(delivered.payments, None), "f").netPayable == 450
  {
    var farmers := [Farmer("f", "Wanjiku")];
    assert KnownFarmer(farmers, "f") by { assert farmers[0].id == "f"; }
    var m1paid := ExampleDelivery("m1").(status := MilkPaid, paidAmount := Some(350));
    var d1done := ExampleDeduction().(status := Processed, appliedToPayment := Some("p1"));
    var m2 := ExampleDelivery("m2");
    var delivered := Ledger([m1paid, m2], [d1done, MilkPaymentRecord("p1", "f", 450, 100)]);
    assert [m1paid, m2][1..] == [m2] && [m2][1..] == [];
    assert LogsWhere([m2], Some("f"), Some(MilkPending)) == [m2];
    assert LogsWhere([m2], None, None) == [m2];
    assert PendingMilk(delivered.milkLogs, "f") == [m2];
    assert MilkTotal([m2]) == 450;
    assert FeedDeductionView(delivered.payments, None) == [d1done];
    assert ChargedDeductions(delivered.payments, None, "f") == [d1done];
    assert DeductionsWhere([d1done], Some("f"), true) == [];
    assert MilkLogView(delivered.milkLogs, None, None) == [m1paid, m2];
    assert LogsWhere([m1paid, m2], Some("f"), Some(MilkPending)) == [m2];
  }

  /** A concrete run of the code as written: a 100 deduction is settled against 10
      liters (paying 350); after 10 more liters are delivered (the ledger the first
      settlement left, with a second pending log), the next settlement charges the
      same, already processed, deduction again and pays 350, while the card shows 450
      payable. */
  lemma DeductionChargedTwice()
    ensures var farmers := [Farmer("f", "Wanjiku")];
            var ledger := Ledger([ExampleDelivery("m1")], [ExampleDeduction()]);
            var m1paid := ExampleDelivery("m1").(status := MilkPaid, paidAmount := Some(350));
            var d1done := ExampleDeduction().(status := Processed, appliedToPayment := Some("p1"));
            var settled := Ledger([m1paid], [d1done, MilkPaymentRecord("p1", "f", 450, 100)]);
            var delivered := Ledger([m1paid, ExampleDelivery("m2")], settled.payments);
            Settle(farmers, ledger, None, "f", "p1") == SettlementStep(settled, Pass) &&
            Settle(farmers, delivered, None, "f", "p2").outcome == Pass &&
            SettlementNet(ledger, None, "f") == 350 &&
            SettlementNet(delivered, None, "f") == 350 &&
            CalculateFarmerBalance(MilkLogView(delivered.milkLogs, None, None),
                                   FeedDeductionView(delivered.payments, None), "f").netPayable == 450
  {
    FirstExampleSettlement();
    SecondExampleSettlement();
  }

  /** The deductions a settlement should charge: the farmer's deductions in the view
      that are not yet processed, the ones the farmer's card counts. */
  function OutstandingDeductions(payments: seq<Payment>, selectedFarmer: Option<string>, farmerId: string): seq<Payment> {
    DeductionsWhere(FeedDeductionView(payments, selectedFarmer), Some(farmerId), true)
  }

  /** The net a settlement should pay, charging only outstanding deductions. */
  function OutstandingNet(ledger: Ledger, selectedFarmer: Option<string>, farmerId: string): int {
    MilkTotal(PendingMilk(ledger.milkLogs, farmerId)) - DeductionTotal(OutstandingDeductions(ledger.payments, selectedFarmer, farmerId))
  }

  /** Charging only outstanding deductions pays exactly the `netPayable` the farmer's card
      shows. */
  lemma OutstandingNetIsDisplayed(ledger: Ledger, selectedFarmer: Option<string>, farmerId: string)
    requires Covers(selectedFarmer, Some(farmerId))
    ensures OutstandingNet(ledger, selectedFarmer, farmerId) ==
            CalculateFarmerBalance(MilkLogView(ledger.milkLogs, selectedFarmer, None),
                                   FeedDeductionView(ledger.payments, selectedFarmer), farmerId).netPayable
  {
    LogsWhereNarrowing(ledger.milkLogs, selectedFarmer, None, Some(farmerId), Some(MilkPending));
  }

  /** Charging only outstanding deductions and stamping them charges no deduction
      twice: once they are stamped, the farmer has no outstanding deduction left. */
  lemma OutstandingChargedOnce(payments: seq<Payment>, selectedFarmer: Option<string>, farmerId: string, paymentId: string)
    ensures var outstanding := OutstandingDeductions(payments, selectedFarmer, farmerId);
            OutstandingDeductions(MarkProcessed(payments, IdsOf(outstanding), Some(paymentId)), selectedFarmer, farmerId) == []
  {
    var outstanding := OutstandingDeductions(payments, selectedFarmer, farmerId);
    var after := MarkProcessed(payments, IdsOf(outstanding), Some(paymentId));
    forall p | p in after
      ensures !(InDeductionView(p, selectedFarmer) && DeductionSelected(p, Some(farmerId), true))
    {
      var k :| 0 <= k < |after| && after[k] == p;
      if payments[k].id !in IdsOf(outstanding) && InDeductionView(payments[k], selectedFarmer) {
        assert payments[k] in FeedDeductionView(payments, selectedFarmer);
      }
    }
    FirstIsMember(OutstandingDeductions(after, selectedFarmer, farmerId));
  }

  // ----- autoDeductFeedCosts -----

  /** A `deduction_applications` document as the loop writes it: a positive amount, at
      most the pending value, stored negated, and the pending value that remains. */
  predicate WellFormedApplication(a: DeductionApplication) {
    0 < a.deductedAmount <= a.originalPending && a.amount == -a.deductedAmount &&
    a.remainingPending == a.originalPending - a.deductedAmount
  }

  /** The deduction application the loop writes for one farmer, if any. `snapshot` is
      the page's deduction view when the button was pressed. */
  function ApplicationFor(snapshot: seq<Payment>, milkLogs: seq<MilkLog>, farmerId: string): (a: Option<DeductionApplication>)
    ensures a.Some? ==> WellFormedApplication(a.value) && a.value.farmerId == farmerId
    ensures a.Some? ==>
              a.value.deductedAmount == Min(DeductionTotal(DeductionsWhere(snapshot, Some(farmerId), true)),
                                            MilkTotal(PendingMilk(milkLogs, farmerId))) &&
              a.value.originalPending == MilkTotal(PendingMilk(milkLogs, farmerId))
    ensures a.None? <==>
              DeductionsWhere(snapshot, Some(farmerId), true) == [] || PendingMilk(milkLogs, farmerId) == [] ||
              Min(DeductionTotal(DeductionsWhere(snapshot, Some(farmerId), true)), MilkTotal(PendingMilk(milkLogs, farmerId))) <= 0
  {
    var farmerDeductions := DeductionsWhere(snapshot, Some(farmerId), true);
    var pendingMilkLogs := PendingMilk(milkLogs, farmerId);
    if |farmerDeductions| == 0 || |pendingMilkLogs| == 0 then None
    else
      var totalPending := MilkTotal(pendingMilkLogs);
      var deductionAmount := Min(DeductionTotal(farmerDeductions), totalPending);
      if deductionAmount > 0 then
        Some(DeductionApplication(farmerId, -deductionAmount, totalPending, deductionAmount, totalPending - deductionAmount))
      else None
  }

  /** The state the loop carries: the payments collection, the applications written so
      far, and the accumulators `totalDeducted` and `farmersProcessed`. */
  datatype AutoDeductRun = AutoDeductRun(payments: seq<Payment>, applications: seq<DeductionApplication>,
                                         totalDeducted: int, farmersProcessed: nat)

  /** Sum of the deducted amounts of a list of applications. */
  function AppliedSum(apps: seq<DeductionApplication>): (total: int)
    ensures (forall k :: 0 <= k < |apps| ==> WellFormedApplication(apps[k])) ==> (total >= 0 && (total == 0 <==> apps == []))
  {
    if apps == [] then 0 else AppliedSum(apps[..|apps| - 1]) + apps[|apps| - 1].deductedAmount
  }

  /** One pass of the loop body for one farmer. */
  function AutoDeductStep(run: AutoDeductRun, snapshot: seq<Payment>, milkLogs: seq<MilkLog>, farmer: Farmer): AutoDeductRun {
    match ApplicationFor(snapshot, milkLogs, farmer.id)
    case None => run
    case Some(a) =>
      AutoDeductRun(MarkProcessed(run.payments, IdsOf(DeductionsWhere(snapshot, Some(farmer.id), true)), None),
                    run.applications + [a], run.totalDeducted + a.deductedAmount, run.farmersProcessed + 1)
  }

  /** The loop of `autoDeductFeedCosts` over the given farmers, in order. */
  function AutoDeduct(farmers: seq<Farmer>, snapshot: seq<Payment>, milkLogs: seq<MilkLog>, payments: seq<Payment>): AutoDeductRun {
    if farmers == [] then AutoDeductRun(payments, [], 0, 0)
    else AutoDeductStep(AutoDeduct(farmers[..|farmers| - 1], snapshot, milkLogs, payments), snapshot, milkLogs, farmers[|farmers| - 1])
  }

  /** The loop writes one well-formed application per farmer it processes, and its total
      is their sum: positive exactly when some farmer was processed. */
  lemma {:induction false} AutoDeductTotals(farmers: seq<Farmer>, snapshot: seq<Payment>, milkLogs: seq<MilkLog>,
                                            payments: seq<Payment>)
    ensures var run := AutoDeduct(farmers, snapshot, milkLogs, payments);
            |run.payments| == |payments| &&
            run.farmersProcessed == |run.applications| <= |farmers| &&
            (forall k :: 0 <= k < |run.applications| ==> WellFormedApplication(run.applications[k])) &&
            run.totalDeducted == AppliedSum(run.applications) &&
            run.totalDeducted >= 0 && (run.totalDeducted == 0 <==> run.farmersProcessed == 0)
  {
    if farmers != [] {
      AutoDeductTotals(farmers[..|farmers| - 1], snapshot, milkLogs, payments);
      var before := AutoDeduct(farmers[..|farmers| - 1], snapshot, milkLogs, payments);
      var a := ApplicationFor(snapshot, milkLogs, farmers[|farmers| - 1].id);
      if a.Some? {
        var apps := before.applications + [a.value];
        assert apps[..|apps| - 1] == before.applications;
        assert AppliedSum(apps) == AppliedSum(before.applications) + a.value.deductedAmount;
      }
    }
  }

  /** The ids, in order, of the farmers for whom the loop writes an application. */
  function ProcessedFarmers(farmers: seq<Farmer>, snapshot: seq<Payment>, milkLogs: seq<MilkLog>): seq<string> {
    if farmers == [] then []
    else
      var last := farmers[|farmers| - 1];
      ProcessedFarmers(farmers[..|farmers| - 1], snapshot, milkLogs) +
      (if ApplicationFor(snapshot, milkLogs, last.id).Some? then [last.id] else [])
  }

  /** The farmer of each application, in order. */
  function ApplicationFarmers(apps: seq<DeductionApplication>): (ids: seq<string>)
    ensures |ids| == |apps| && forall k :: 0 <= k < |apps| ==> ids[k] == apps[k].farmerId
  {
    seq(|apps|, k requires 0 <= k < |apps| => apps[k].farmerId)
  }

  /** The payment id is one of the active snapshot deductions of a farmer of the list
      for whom the loop writes an application. */
  predicate StampedBy(farmers: seq<Farmer>, snapshot: seq<Payment>, milkLogs: seq<MilkLog>, id: string) {
    exists f :: f in farmers && ApplicationFor(snapshot, milkLogs, f.id).Some? &&
                id in IdsOf(DeductionsWhere(snapshot, Some(f.id), true))
  }

  lemma StampedByStep(farmers: seq<Farmer>, snapshot: seq<Payment>, milkLogs: seq<MilkLog>, id: string)
    requires farmers != []
    ensures var last := farmers[|farmers| - 1];
            StampedBy(farmers, snapshot, milkLogs, id) <==>
              StampedBy(farmers[..|farmers| - 1], snapshot, milkLogs, id) ||
              (ApplicationFor(snapshot, milkLogs, last.id).Some? && id in IdsOf(DeductionsWhere(snapshot, Some(last.id), true)))
  {
    assert farmers == farmers[..|farmers| - 1] + [farmers[|farmers| - 1]];
  }

  /** Over the whole loop: a payment ends 'processed' exactly when it is an active
      snapshot deduction of a farmer who got an application, and is otherwise
      unchanged. */
  lemma {:induction false} AutoDeductMarks(farmers: seq<Farmer>, snapshot: seq<Payment>, milkLogs: seq<MilkLog>,
                                           payments: seq<Payment>)
    ensures var run := AutoDeduct(farmers, snapshot, milkLogs, payments);
            |run.payments| == |payments| &&
            forall k :: 0 <= k < |payments| ==>
              run.payments[k] == if StampedBy(farmers, snapshot, milkLogs, payments[k].id) then payments[k].(status := Processed)
                                 else payments[k]
  {
    if farmers != [] {
      var init := farmers[..|farmers| - 1];
      var last := farmers[|farmers| - 1];
      AutoDeductMarks(init, snapshot, milkLogs, payments);
      var before := AutoDeduct(init, snapshot, milkLogs, payments);
      var run := AutoDeduct(farmers, snapshot, milkLogs, payments);
      var ids := IdsOf(DeductionsWhere(snapshot, Some(last.id), true));
      forall k | 0 <= k < |payments|
        ensures run.payments[k] == if StampedBy(farmers, snapshot, milkLogs, payments[k].id) then payments[k].(status := Processed)
                                   else payments[k]
      {
        StampedByStep(farmers, snapshot, milkLogs, payments[k].id);
        if ApplicationFor(snapshot, milkLogs, last.id).Some? {
          assert run.payments[k] == Stamp(before.payments[k], ids, None);
        }
      }
    }
  }

  /** Over the whole loop: the applications belong, in order, to exactly the farmers
      for whom one is written, so `farmersProcessed` counts those farmers. */
  lemma {:induction false} AutoDeductOrder(farmers: seq<Farmer>, snapshot: seq<Payment>, milkLogs: seq<MilkLog>,
                                           payments: seq<Payment>)
    ensures var run := AutoDeduct(farmers, snapshot, milkLogs, payments);
            ApplicationFarmers(run.applications) == ProcessedFarmers(farmers, snapshot, milkLogs) &&
            run.farmersProcessed == |ProcessedFarmers(farmers, snapshot, milkLogs)|
  {
    if farmers != [] {
      var init := farmers[..|farmers| - 1];
      var last := farmers[|farmers| - 1];
      AutoDeductOrder(init, snapshot, milkLogs, payments);
      var before := AutoDeduct(init, snapshot, milkLogs, payments);
      var a := ApplicationFor(snapshot, milkLogs, last.id);
      if a.Some? {
        ApplicationFarmersAppend(before.applications, a.value);
      }
    }
    AutoDeductTotals(farmers, snapshot, milkLogs, payments);
  }

  lemma ApplicationFarmersAppend(apps: seq<DeductionApplication>, a: DeductionApplication)
    ensures ApplicationFarmers(apps + [a]) == ApplicationFarmers(apps) + [a.farmerId]
  {
    assert |ApplicationFarmers(apps + [a])| == |ApplicationFarmers(apps) + [a.farmerId]|;
    forall k | 0 <= k < |apps| + 1
      ensures ApplicationFarmers(apps + [a])[k] == (ApplicationFarmers(apps) + [a.farmerId])[k]
    {
      if k < |apps| {
        assert (apps + [a])[k] == apps[k];
      }
    }
  }

  /** The loop body of `autoDeductFeedCosts` for one farmer. */
  method ApplyDeductionsOfFarmer(db: Database, feedDeductions: seq<Payment>, farmer: Farmer) returns (deductionAmount: int)
    modifies db`payments, db`deductionApplications
    ensures var a := ApplicationFor(feedDeductions, db.milkLogs, farmer.id);
            (a.None? ==> deductionAmount == 0 && db.payments == old(db.payments) &&
                         db.deductionApplications == old(db.deductionApplications)) &&
            (a.Some? ==> deductionAmount == a.value.deductedAmount &&
                         db.payments == MarkProcessed(old(db.payments), IdsOf(DeductionsWhere(feedDeductions, Some(farmer.id), true)), None) &&
                         db.deductionApplications == old(db.deductionApplications) + [a.value])
  {
    deductionAmount := 0;
    var farmerDeductions := DeductionsWhere(feedDeductions, Some(farmer.id), true);
    if |farmerDeductions| == 0 {
      return;
    }
    var totalDeductions := DeductionTotal(farmerDeductions);
    var pendingMilkLogs := PendingMilk(db.milkLogs, farmer.id);
    if |pendingMilkLogs| == 0 {
      return;
    }
    var totalPending := MilkTotal(pendingMilkLogs);
    var amount := Min(totalDeductions, totalPending);
    if amount > 0 {
      var application := DeductionApplication(farmer.id, -amount, totalPending, amount, totalPending - amount);
      assert ApplicationFor(feedDeductions, db.milkLogs, farmer.id) == Some(application);
      db.deductionApplications := db.deductionApplications + [application];
      MarkProcessedInPlace(db, IdsOf(farmerDeductions), None);
      deductionAmount := amount;
    }
  }

  method AutoDeductFeedCosts(db: Database, selectedFarmer: Option<string>) returns (totalDeducted: int, farmersProcessed: nat)
    modifies db`payments, db`deductionApplications
    ensures var run := AutoDeduct(db.farmers, FeedDeductionView(old(db.payments), selectedFarmer), db.milkLogs, old(db.payments));
            db.payments == run.payments && db.deductionApplications == old(db.deductionApplications) + run.applications &&
            totalDeducted == run.totalDeducted && farmersProcessed == run.farmersProcessed
    ensures db.milkLogs == old(db.milkLogs)
  {
    var feedDeductions := FeedDeductionView(db.payments, selectedFarmer);
    ghost var payments0 := db.payments;
    ghost var applications0 := db.deductionApplications;
    ghost var farmers := db.farmers;
    ghost var milkLogs := db.milkLogs;
    totalDeducted := 0;
    farmersProcessed := 0;
    for k := 0 to |db.farmers|
      invariant db.farmers == farmers && db.milkLogs == milkLogs
      invariant var run := AutoDeduct(farmers[..k], feedDeductions, milkLogs, payments0);
                db.payments == run.payments && db.deductionApplications == applications0 + run.applications &&
                totalDeducted == run.totalDeducted && farmersProcessed == run.farmersProcessed
    {
      AutoDeductPrefixStep(farmers, k, feedDeductions, milkLogs, payments0);
      ghost var run := AutoDeduct(farmers[..k], feedDeductions, milkLogs, payments0);
      var deductionAmount := ApplyDeductionsOfFarmer(db, feedDeductions, db.farmers[k]);
      AutoDeductStepApplied(run, feedDeductions, milkLogs, farmers[k], db.payments, applications0, db.deductionApplications,
                            deductionAmount);
      if deductionAmount > 0 {
        totalDeducted := totalDeducted + deductionAmount;
        farmersProcessed := farmersProcessed + 1;
      }
    }
    assert farmers[..|farmers|] == farmers;
  }

  /** What the loop body writes for one farmer is one step of the loop. */
  lemma AutoDeductStepApplied(run: AutoDeductRun, snapshot: seq<Payment>, milkLogs: seq<MilkLog>, farmer: Farmer,
                              payments: seq<Payment>, applications0: seq<DeductionApplication>,
                              applications: seq<DeductionApplication>, amount: int)
    requires var a := ApplicationFor(snapshot, milkLogs, farmer.id);
             (a.None? ==> amount == 0 && payments == run.payments && applications == applications0 + run.applications) &&
             (a.Some? ==> amount == a.value.deductedAmount &&
                          payments == MarkProcessed(run.payments, IdsOf(DeductionsWhere(snapshot, Some(farmer.id), true)), None) &&
                          applications == applications0 + run.applications + [a.value])
    ensures var next := AutoDeductStep(run, snapshot, milkLogs, farmer);
            next.payments == payments && applications == applications0 + next.applications &&
            next.totalDeducted == run.totalDeducted + amount &&
            next.farmersProcessed == run.farmersProcessed + (if amount > 0 then 1 else 0)
  {
    var a := ApplicationFor(snapshot, milkLogs, farmer.id);
    if a.Some? {
      AppendAssoc(applications0, run.applications, [a.value]);
    }
  }

  /** The loop over one more farmer is one more step. */
  lemma AutoDeductPrefixStep(farmers: seq<Farmer>, k: nat, snapshot: seq<Payment>, milkLogs: seq<MilkLog>,
                             payments: seq<Payment>)
    requires k < |farmers|
    ensures AutoDeduct(farmers[..k + 1], snapshot, milkLogs, payments) ==
            AutoDeductStep(AutoDeduct(farmers[..k], snapshot, milkLogs, payments), snapshot, milkLogs, farmers[k])
  {
    assert farmers[..k + 1][..k] == farmers[..k];
  }

  /** When a farmer's outstanding deductions exceed the pending milk value, only the
      pending value is applied, nothing remains pending, and still every one of those
      deductions is marked processed. */
  lemma PartialCoverMarksAllProcessed(snapshot: seq<Payment>, milkLogs: seq<MilkLog>, payments: seq<Payment>,
                                      farmerId: string, k: nat)
    requires DeductionTotal(DeductionsWhere(snapshot, Some(farmerId), true)) > MilkTotal(PendingMilk(milkLogs, farmerId)) > 0
    requires k < |payments| && payments[k] in DeductionsWhere(snapshot, Some(farmerId), true)
    ensures var a := ApplicationFor(snapshot, milkLogs, farmerId);
            a.Some? && a.value.deductedAmount == MilkTotal(PendingMilk(milkLogs, farmerId)) &&
            a.value.deductedAmount < DeductionTotal(DeductionsWhere(snapshot, Some(farmerId), true)) &&
            a.value.remainingPending == 0 &&
            MarkProcessed(payments, IdsOf(DeductionsWhere(snapshot, Some(farmerId), true)), None)[k].status == Processed
  {
    var active := DeductionsWhere(snapshot, Some(farmerId), true);
    if active == [] {
      assert false;
    }
    if PendingMilk(milkLogs, farmerId) == [] {
      assert false;
    }
    assert payments[k].id in IdsOf(active);
  }

  // ----- markAsPaid -----

  /** `markAsPaid(milkLogId)`: if the page's log view holds the log, its document is
      set to 'paid' (its `paidAmount` is left as it was); otherwise nothing changes. */
  function MarkPaid(view: seq<MilkLog>, milkLogs: seq<MilkLog>, logId: string): (after: seq<MilkLog>)
    ensures |after| == |milkLogs|
    ensures (forall l :: l in view ==> l.id != logId) ==> after == milkLogs
    ensures (exists l :: l in view && l.id == logId) ==>
              forall k :: 0 <= k < |milkLogs| ==>
                (milkLogs[k].id == logId ==> after[k] == milkLogs[k].(status := MilkPaid)) &&
                (milkLogs[k].id != logId ==> after[k] == milkLogs[k])
  {
    if exists l :: l in view && l.id == logId then
      seq(|milkLogs|, k requires 0 <= k < |milkLogs| =>
            if milkLogs[k].id == logId then milkLogs[k].(status := MilkPaid) else milkLogs[k])
    else milkLogs
  }

  method MarkAsPaid(db: Database, selectedFarmer: Option<string>, statusFilter: Option<MilkStatus>, milkLogId: string)
    modifies db`milkLogs
    ensures db.milkLogs == MarkPaid(MilkLogView(old(db.milkLogs), selectedFarmer, statusFilter), old(db.milkLogs), milkLogId)
  {
    var logs := MilkLogView(db.milkLogs, selectedFarmer, statusFilter);
    var listed := exists l :: l in logs && l.id == milkLogId;
    if !listed {
      return;
    }
    ghost var logs0 := db.milkLogs;
    for k := 0 to |db.milkLogs|
      invariant |db.milkLogs| == |logs0|
      invariant forall j :: 0 <= j < k ==> db.milkLogs[j] == if logs0[j].id == milkLogId then logs0[j].(status := MilkPaid) else logs0[j]
      invariant forall j :: k <= j < |db.milkLogs| ==> db.milkLogs[j] == logs0[j]
    {
      if db.milkLogs[k].id == milkLogId {
        db.milkLogs := db.milkLogs[k := db.milkLogs[k].(status := MilkPaid)];
      }
    }
  }

  /** Marking a listed pending delivery paid moves its value from the page's pending
      total to its paid total. */
  lemma MarkPaidMovesValue(milkLogs: seq<MilkLog>, selectedFarmer: Option<string>, statusFilter: Option<MilkStatus>, k: nat)
    requires k < |milkLogs| && milkLogs[k].status == MilkPending
    requires LogSelected(milkLogs[k], selectedFarmer, statusFilter)
    requires forall j :: 0 <= j < |milkLogs| && j != k ==> milkLogs[j].id != milkLogs[k].id
    ensures var after := MarkPaid(MilkLogView(milkLogs, selectedFarmer, statusFilter), milkLogs, milkLogs[k].id);
            MilkTotal(LogsWhere(after, None, Some(MilkPaid))) ==
              MilkTotal(LogsWhere(milkLogs, None, Some(MilkPaid))) + MilkValue(milkLogs[k]) &&
            MilkTotal(LogsWhere(after, None, Some(MilkPending))) ==
              MilkTotal(LogsWhere(milkLogs, None, Some(MilkPending))) - MilkValue(milkLogs[k])
  {
    var view := MilkLogView(milkLogs, selectedFarmer, statusFilter);
    assert milkLogs[k] in view;
    var after := MarkPaid(view, milkLogs, milkLogs[k].id);
    assert after == milkLogs[k := milkLogs[k].(status := MilkPaid)];
    SelectedTotalUpdate(milkLogs, k, milkLogs[k].(status := MilkPaid), None, Some(MilkPaid));
    SelectedTotalUpdate(milkLogs, k, milkLogs[k].(status := MilkPaid), None, Some(MilkPending));
  }
}
