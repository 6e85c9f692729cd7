/** Worked examples of the feed workflow on a one-feed inventory: 100 kg of hay at 45 per
    kg, nothing reserved, and two pending requests for hay. */
module Scenarios {
  import opened Basics
  import opened Records
  import opened FeedCatalog
  import opened FeedInventory
  import opened FeedRequests
  import opened RequestLifecycle

  function Hay(onHand: int, reserved: int): Feed {
    Feed("f1", Some("hay"), Some("hay"), "kg", Some(onHand), Some(reserved), Some(onHand - reserved), Some(45), Some(10))
  }

  function HayRequest(id: string, quantity: int, status: RequestStatus): FeedRequest {
    FeedRequest(id, "farmer1", Some("hay"), None, Some(quantity), status, None)
  }

  /** Every hay request finds the hay feed first. */
  lemma HayRequestMatchesHay(onHand: int, reserved: int, id: string, quantity: int, status: RequestStatus)
    ensures FindMatchingFeed([Hay(onHand, reserved)], HayRequest(id, quantity, status)) == Some(0)
  {
    assert Lower("hay") == "hay" by {
      assert Lower("hay") == [LowerChar('h')] + Lower("ay");
      assert Lower("ay") == [LowerChar('a')] + Lower("y");
      assert Lower("y") == [LowerChar('y')] + Lower("");
    }
    assert MatchesTypeName(Hay(onHand, reserved), HayRequest(id, quantity, status));
  }

  /** Approving 30 kg reserves 30 kg and leaves 70 available; approving a further 80 kg
      is then refused because only 70 are available, and the inventory keeps its
      state, although the second request's status is written as approved. */
  lemma ApproveThenOverbook(d: string)
    ensures var s := FeedsState([Hay(100, 0)], [HayRequest("r1", 30, Pending), HayRequest("r2", 80, Pending)], []);
            var t1 := UpdateStatus(s, "r1", Approved, d);
            var t2 := UpdateStatus(t1.state, "r2", Approved, d);
            t1.outcome == Pass &&
            t1.state.feeds == [Hay(100, 30)] &&
            GetStockStatus(t1.state.feeds[0]) == StockStatus(InStock, 70, 30) &&
            t2.outcome == Fail(InsufficientStock(70, 80)) &&
            t2.state.feeds == [Hay(100, 30)] &&
            t2.state.requests[1].status == Approved &&
            t2.state.payments == []
  {
    var s := FeedsState([Hay(100, 0)], [HayRequest("r1", 30, Pending), HayRequest("r2", 80, Pending)], []);
    HayRequestMatchesHay(100, 0, "r1", 30, Pending);
    FeedCostUsesMatchedPrice(s.feeds, s.requests[0], 0);
    assert FindRequest(s.requests, "r1") == Some(0);
    ApproveStep(s, "r1", 0, 0, d);
    var t1 := UpdateStatus(s, "r1", Approved, d);
    assert t1.state.feeds == [Hay(100, 30)];
    assert t1.state.requests[1] == HayRequest("r2", 80, Pending);
    assert FindRequest(t1.state.requests, "r2") == Some(1) by {
      assert t1.state.requests[0].id == "r1";
      assert "r1" != "r2" by { assert "r1"[1] != "r2"[1]; }
    }
    HayRequestMatchesHay(100, 30, "r2", 80, Pending);
  }

  /** The hay request for 30 kg once approved, its cost written as 30 x 45. */
  function ApprovedHayRequest(): FeedRequest {
    HayRequest("r1", 30, Approved).(cost := Some(1350))
  }

  /** Approving 30 kg of hay reserves it and writes the request's cost. */
  lemma ApproveHay(d1: string)
    ensures UpdateStatus(FeedsState([Hay(100, 0)], [HayRequest("r1", 30, Pending)], []), "r1", Approved, d1) ==
            Transition(FeedsState([Hay(100, 30)], [ApprovedHayRequest()], []), Pass)
  {
    var s := FeedsState([Hay(100, 0)], [HayRequest("r1", 30, Pending)], []);
    HayRequestMatchesHay(100, 0, "r1", 30, Pending);
    FeedCostUsesMatchedPrice(s.feeds, s.requests[0], 0);
    assert FindRequest(s.requests, "r1") == Some(0);
    ApproveStep(s, "r1", 0, 0, d1);
  }

  /** Delivering the approved 30 kg takes it out of stock and out of the reservation,
      and posts a deduction of -1350. */
  lemma DeliverApprovedHay(d2: string)
    ensures var t := UpdateStatus(FeedsState([Hay(100, 30)], [ApprovedHayRequest()], []), "r1", Delivered, d2);
            t.outcome == Pass && t.state.feeds == [Hay(70, 0)] &&
            t.state.payments == [DeductionRecord(HayRequest("r1", 30, Pending), 1350, d2)]
  {
    var s := FeedsState([Hay(100, 30)], [ApprovedHayRequest()], []);
    var r1 := ApprovedHayRequest();
    assert FindRequest(s.requests, "r1") == Some(0);
    HayRequestMatchesHay(100, 30, "r1", 30, Approved);
    assert FindMatchingFeed(s.feeds, r1) == Some(0) by {
      SameDemandSameMatch(s.feeds, r1, HayRequest("r1", 30, Approved));
    }
    FeedCostUsesMatchedPrice(s.feeds, r1, 0);
    DeliverStep(s, "r1", 0, 0, d2);
    assert DeductionCount([], "r1") == 0;
  }

  /** Approving and then delivering 30 kg leaves 70 kg on hand, nothing reserved, and
      one deduction of -1350 for the request. */
  lemma ApproveThenDeliverHay(d1: string, d2: string)
    ensures var s := FeedsState([Hay(100, 0)], [HayRequest("r1", 30, Pending)], []);
            var t1 := UpdateStatus(s, "r1", Approved, d1);
            var t2 := UpdateStatus(t1.state, "r1", Delivered, d2);
            t2.outcome == Pass &&
            t2.state.feeds == [Hay(70, 0)] &&
            t2.state.payments == [DeductionRecord(HayRequest("r1", 30, Pending), 1350, d2)] &&
            t2.state.payments[0].amount == Some(-1350)
  {
    ApproveHay(d1);
    DeliverApprovedHay(d2);
  }
}
