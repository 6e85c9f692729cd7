/** Properties of `updateRequestStatus` across several calls: a request taken from
    pending through approved and delivered back to pending leaves stock and ledger as
    they were; a failed step still records the status; a delivery moves the request's
    cost from the pending total to the delivered total; and the stock bounds and the
    one-deduction-per-request ledger rule are kept by every call. */
module RequestLifecycle {
  import opened Basics
  import opened Records
  import opened FeedCatalog
  import opened FeedInventory
  import opened FeedRequests

  /** The fallback price reads only the request's type name and type key. */
  lemma SameDemandSameCost(feeds: seq<Feed>, a: FeedRequest, b: FeedRequest)
    requires SameDemand(a, b)
    ensures FeedCost(feeds, a) == FeedCost(feeds, b)
  {
    SameDemandSameMatch(feeds, a, b);
  }

  /** Re-reading a request after its status was written hands the inventory the same
      demand: every stock operation does the same to the same feed. */
  lemma SameDemandSameSteps(feeds: seq<Feed>, a: FeedRequest, b: FeedRequest)
    requires SameDemand(a, b)
    ensures Reserve(feeds, a) == Reserve(feeds, b) && Commit(feeds, a) == Commit(feeds, b)
    ensures Release(feeds, a) == Release(feeds, b) && Restore(feeds, a) == Restore(feeds, b)
  {
    SameDemandSameMatch(feeds, a, b);
  }

  /** One approval that the inventory accepts: the status and cost are written and the
      matched feed's stock reserved; the ledger is untouched. */
  lemma ApproveStep(s: FeedsState, id: string, k: nat, i: nat, d: string)
    requires FindRequest(s.requests, id) == Some(k) && s.requests[k].status != Approved
    requires FindMatchingFeed(s.feeds, s.requests[k]) == Some(i)
    requires ReserveFeed(s.feeds[i], RequestedQuantity(s.requests[k])).Updated?
    ensures var t := UpdateStatus(s, id, Approved, d);
            var r := s.requests[k];
            t.outcome == Pass &&
            t.state == FeedsState(s.feeds[i := ReserveFeed(s.feeds[i], RequestedQuantity(r)).feed],
                                  s.requests[k := WithStatus(r, Approved, FeedCost(s.feeds, r))],
                                  s.payments)
  {
  }

  /** One delivery that the inventory accepts: the stock is taken out of the matched
      feed and a deduction posted for the request. */
  lemma DeliverStep(s: FeedsState, id: string, k: nat, i: nat, d: string)
    requires FindRequest(s.requests, id) == Some(k) && s.requests[k].status != Delivered
    requires FindMatchingFeed(s.feeds, s.requests[k]) == Some(i)
    requires CommitFeed(s.feeds[i], RequestedQuantity(s.requests[k])).Updated?
    ensures var t := UpdateStatus(s, id, Delivered, d);
            var r := s.requests[k];
            var c := FeedCost(s.feeds, r);
            t.outcome == Pass &&
            t.state == FeedsState(s.feeds[i := CommitFeed(s.feeds[i], RequestedQuantity(r)).feed],
                                  s.requests[k := WithStatus(r, Delivered, c)],
                                  PostDeduction(s.payments, r, c, d))
  {
  }

  /** Setting a delivered request back to pending puts the stock back into the matched
      feed and removes the request's deductions. */
  lemma ResetDeliveredStep(s: FeedsState, id: string, k: nat, i: nat, d: string)
    requires FindRequest(s.requests, id) == Some(k) && s.requests[k].status == Delivered
    requires FindMatchingFeed(s.feeds, s.requests[k]) == Some(i)
    ensures var t := UpdateStatus(s, id, Pending, d);
            var r := s.requests[k];
            t.outcome == Pass &&
            t.state == FeedsState(s.feeds[i := RestoreFeed(s.feeds[i], RequestedQuantity(r))],
                                  s.requests[k := WithStatus(r, Pending, FeedCost(s.feeds, r))],
                                  RemoveDeductions(s.payments, id))
  {
  }

  /** The state after an accepted approval: the request is still found at k, still
      matches feed i, costs what it did, and the reserved feed has its quantity on
      hand. */
  lemma ApprovedStateReadyToDeliver(s: FeedsState, id: string, k: nat, i: nat)
    requires FindRequest(s.requests, id) == Some(k)
    requires s.requests[k].status != Approved && s.requests[k].status != Delivered
    requires FindMatchingFeed(s.feeds, s.requests[k]) == Some(i)
    requires StockInvariant(s.feeds[i]) && RequestedQuantity(s.requests[k]) <= Available(s.feeds[i])
    ensures var r := s.requests[k];
            var q := RequestedQuantity(r);
            var c := FeedCost(s.feeds, r);
            var s1 := FeedsState(s.feeds[i := ReserveFeed(s.feeds[i], q).feed], s.requests[k := WithStatus(r, Approved, c)], s.payments);
            FindRequest(s1.requests, id) == Some(k) && s1.requests[k].status != Delivered &&
            FindMatchingFeed(s1.feeds, s1.requests[k]) == Some(i) &&
            RequestedQuantity(s1.requests[k]) == q &&
            CommitFeed(s1.feeds[i], q).Updated? &&
            FeedCost(s1.feeds, s1.requests[k]) == c
  {
    var r0 := s.requests[k];
    var q := RequestedQuantity(r0);
    var c := FeedCost(s.feeds, r0);
    ReserveCommitRestoreRoundTrip(s.feeds[i], q);
    var r1 := WithStatus(r0, Approved, c);
    var feeds1 := s.feeds[i := ReserveFeed(s.feeds[i], q).feed];
    FindRequestAfterUpdate(s.requests, id, k, r1);
    SameCatalogSameMatch(s.feeds, feeds1, r0);
    SameDemandSameMatch(feeds1, r1, r0);
    SameCatalogSameCost(s.feeds, feeds1, r1);
    SameDemandSameCost(s.feeds, r1, r0);
  }

  /** Delivering the request after that approval commits the reserved feed and posts
      the deduction. */
  lemma DeliverAfterApproval(s: FeedsState, id: string, k: nat, i: nat, d2: string)
    requires FindRequest(s.requests, id) == Some(k)
    requires s.requests[k].status != Approved && s.requests[k].status != Delivered
    requires FindMatchingFeed(s.feeds, s.requests[k]) == Some(i)
    requires StockInvariant(s.feeds[i]) && RequestedQuantity(s.requests[k]) <= Available(s.feeds[i])
    ensures var r := s.requests[k];
            var q := RequestedQuantity(r);
            var c := FeedCost(s.feeds, r);
            var reserved := ReserveFeed(s.feeds[i], q).feed;
            var s1 := FeedsState(s.feeds[i := reserved], s.requests[k := WithStatus(r, Approved, c)], s.payments);
            CommitFeed(reserved, q).Updated? &&
            UpdateStatus(s1, id, Delivered, d2) ==
              Transition(FeedsState(s.feeds[i := CommitFeed(reserved, q).feed],
                                    s.requests[k := WithStatus(r, Delivered, c)],
                                    PostDeduction(s.payments, r, c, d2)), Pass)
  {
    var r0 := s.requests[k];
    var q := RequestedQuantity(r0);
    var c := FeedCost(s.feeds, r0);
    var reserved := ReserveFeed(s.feeds[i], q).feed;
    var r1 := WithStatus(r0, Approved, c);
    var s1 := FeedsState(s.feeds[i := reserved], s.requests[k := r1], s.payments);
    ApprovedStateReadyToDeliver(s, id, k, i);
    assert s1.requests[k] == r1 && s1.feeds[i] == reserved;
    DeliverStep(s1, id, k, i, d2);
    UpdateTwice(s.requests, k, r1, WithStatus(r1, Delivered, c));
    UpdateTwice(s.feeds, i, reserved, CommitFeed(reserved, q).feed);
    assert PostDeduction(s.payments, r1, c, d2) == PostDeduction(s.payments, r0, c, d2);
  }

  /** Approving a request and then delivering it, both accepted by the inventory: the
      matched feed has the quantity reserved and then taken out, and one deduction is
      posted. */
  lemma ApproveThenDeliver(s: FeedsState, id: string, k: nat, i: nat, d1: string, d2: string)
    requires FindRequest(s.requests, id) == Some(k)
    requires s.requests[k].status != Approved && s.requests[k].status != Delivered
    requires FindMatchingFeed(s.feeds, s.requests[k]) == Some(i)
    requires StockInvariant(s.feeds[i]) && RequestedQuantity(s.requests[k]) <= Available(s.feeds[i])
    ensures var r := s.requests[k];
            var q := RequestedQuantity(r);
            var c := FeedCost(s.feeds, r);
            var t1 := UpdateStatus(s, id, Approved, d1);
            var t2 := UpdateStatus(t1.state, id, Delivered, d2);
            t1.outcome == Pass && t2.outcome == Pass &&
            t2.state == FeedsState(s.feeds[i := CommitFeed(ReserveFeed(s.feeds[i], q).feed, q).feed],
                                   s.requests[k := WithStatus(r, Delivered, c)],
                                   PostDeduction(s.payments, r, c, d2))
  {
    ApproveStep(s, id, k, i, d1);
    DeliverAfterApproval(s, id, k, i, d2);
  }

  /** The state after an accepted approval and delivery: the request is still found at
      k, still matches feed i, and costs what it did. */
  lemma DeliveredStateReadyToReset(s: FeedsState, id: string, k: nat, i: nat, d2: string)
    requires FindRequest(s.requests, id) == Some(k)
    requires FindMatchingFeed(s.feeds, s.requests[k]) == Some(i)
    requires StockInvariant(s.feeds[i]) && RequestedQuantity(s.requests[k]) <= Available(s.feeds[i])
    ensures var r := s.requests[k];
            var q := RequestedQuantity(r);
            var c := FeedCost(s.feeds, r);
            var delivered := CommitFeed(ReserveFeed(s.feeds[i], q).feed, q);
            delivered.Updated? &&
            var s2 := FeedsState(s.feeds[i := delivered.feed], s.requests[k := WithStatus(r, Delivered, c)],
                                 PostDeduction(s.payments, r, c, d2));
            FindRequest(s2.requests, id) == Some(k) && s2.requests[k].status == Delivered &&
            FindMatchingFeed(s2.feeds, s2.requests[k]) == Some(i) &&
            RequestedQuantity(s2.requests[k]) == q &&
            FeedCost(s2.feeds, s2.requests[k]) == c &&
            r.id == id
  {
    var r0 := s.requests[k];
    var q := RequestedQuantity(r0);
    var c := FeedCost(s.feeds, r0);
    ReserveCommitRestoreRoundTrip(s.feeds[i], q);
    var r2 := WithStatus(r0, Delivered, c);
    var feeds2 := s.feeds[i := CommitFeed(ReserveFeed(s.feeds[i], q).feed, q).feed];
    FindRequestAfterUpdate(s.requests, id, k, r2);
    SameCatalogSameMatch(s.feeds, feeds2, r0);
    SameDemandSameMatch(feeds2, r2, r0);
    SameCatalogSameCost(s.feeds, feeds2, r2);
    SameDemandSameCost(s.feeds, r2, r0);
  }

  /** Setting the request back to pending after that approval and delivery restores the
      feed from the delivered counters, removes the deduction and keeps the cost. */
  lemma ResetAfterDelivery(s: FeedsState, id: string, k: nat, i: nat, d2: string, d3: string)
    requires FindRequest(s.requests, id) == Some(k) && s.requests[k].status == Pending
    requires FindMatchingFeed(s.feeds, s.requests[k]) == Some(i)
    requires StockInvariant(s.feeds[i]) && RequestedQuantity(s.requests[k]) <= Available(s.feeds[i])
    requires DeductionCount(s.payments, id) == 0
    ensures var r := s.requests[k];
            var q := RequestedQuantity(r);
            var c := FeedCost(s.feeds, r);
            var delivered := CommitFeed(ReserveFeed(s.feeds[i], q).feed, q);
            delivered.Updated? &&
            var s2 := FeedsState(s.feeds[i := delivered.feed], s.requests[k := WithStatus(r, Delivered, c)],
                                 PostDeduction(s.payments, r, c, d2));
            UpdateStatus(s2, id, Pending, d3) ==
              Transition(FeedsState(s.feeds[i := RestoreFeed(delivered.feed, q)],
                                    s.requests[k := r.(cost := Some(c))],
                                    s.payments), Pass)
  {
    var r0 := s.requests[k];
    var q := RequestedQuantity(r0);
    var c := FeedCost(s.feeds, r0);
    DeliveredStateReadyToReset(s, id, k, i, d2);
    var delivered := CommitFeed(ReserveFeed(s.feeds[i], q).feed, q).feed;
    var r2 := WithStatus(r0, Delivered, c);
    var s2 := FeedsState(s.feeds[i := delivered], s.requests[k := r2], PostDeduction(s.payments, r0, c, d2));
    assert s2.requests[k] == r2 && s2.feeds[i] == delivered;
    ResetDeliveredStep(s2, id, k, i, d3);
    assert RemoveDeductions(s2.payments, id) == s.payments by {
      PostThenRemove(s.payments, r0, c, d2);
      RemoveNothing(s.payments, id);
    }
    assert WithStatus(r2, Pending, c) == r0.(cost := Some(c));
    UpdateTwice(s.requests, k, r2, WithStatus(r2, Pending, c));
    UpdateTwice(s.feeds, i, delivered, RestoreFeed(delivered, q));
  }

  /** Approving a pending request whose feed has the quantity available, delivering it,
      and setting it back to pending gives back the matched feed's stock on hand and
      reservation, leaves all other feeds and the payment ledger as they were, and
      leaves the request pending with its cost recorded. */
  lemma ApproveDeliverResetRoundTrip(s: FeedsState, id: string, k: nat, i: nat,
                                     d1: string, d2: string, d3: string)
    requires FindRequest(s.requests, id) == Some(k)
    requires s.requests[k].status == Pending
    requires FindMatchingFeed(s.feeds, s.requests[k]) == Some(i)
    requires StockInvariant(s.feeds[i]) && RequestedQuantity(s.requests[k]) <= Available(s.feeds[i])
    requires DeductionCount(s.payments, id) == 0
    ensures var t1 := UpdateStatus(s, id, Approved, d1);
            var t2 := UpdateStatus(t1.state, id, Delivered, d2);
            var t3 := UpdateStatus(t2.state, id, Pending, d3);
            t1.outcome == Pass && t2.outcome == Pass && t3.outcome == Pass &&
            i < |t3.state.feeds| &&
            OnHand(t3.state.feeds[i]) == OnHand(s.feeds[i]) &&
            ReservedOf(t3.state.feeds[i]) == ReservedOf(s.feeds[i]) &&
            OthersUnchanged(s.feeds, t3.state.feeds, i) &&
            t3.state.payments == s.payments &&
            t3.state.requests == s.requests[k := s.requests[k].(cost := Some(FeedCost(s.feeds, s.requests[k])))]
  {
    ReserveCommitRestoreRoundTrip(s.feeds[i], RequestedQuantity(s.requests[k]));
    ApproveThenDeliver(s, id, k, i, d1, d2);
    ResetAfterDelivery(s, id, k, i, d2, d3);
  }

  /** The status is written before the inventory is touched: a delivery the inventory
      refuses still leaves the request marked delivered, with no deduction posted and
      the stock as it was. */
  lemma RefusedDeliveryStaysRecorded(s: FeedsState, id: string, k: nat, d: string)
    requires FindRequest(s.requests, id) == Some(k)
    requires s.requests[k].status != Delivered
    requires Commit(s.feeds, s.requests[k]).outcome.Fail?
    ensures var t := UpdateStatus(s, id, Delivered, d);
            t.outcome == Commit(s.feeds, s.requests[k]).outcome &&
            k < |t.state.requests| && t.state.requests[k].status == Delivered &&
            t.state.feeds == s.feeds && t.state.payments == s.payments
  {
  }

  /** Delivering an approved request moves its cost from the pending total to the
      delivered total, whether or not the inventory accepts the delivery. */
  lemma DeliveryMovesCost(s: FeedsState, id: string, k: nat, d: string)
    requires FindRequest(s.requests, id) == Some(k)
    requires s.requests[k].status == Approved
    ensures var t := UpdateStatus(s, id, Delivered, d);
            var c := FeedCost(s.feeds, s.requests[k]);
            TotalPendingDeductions(t.state.feeds, t.state.requests) == TotalPendingDeductions(s.feeds, s.requests) - c &&
            TotalDeliveredDeductions(t.state.feeds, t.state.requests) == TotalDeliveredDeductions(s.feeds, s.requests) + c
  {
    var t := UpdateStatus(s, id, Delivered, d);
    var r0 := s.requests[k];
    var c := FeedCost(s.feeds, r0);
    var r1 := WithStatus(r0, Delivered, c);
    SameDemandSameCost(s.feeds, r1, r0);
    CostTotalUpdate(s.feeds, s.requests, k, r1, {Pending, Approved});
    CostTotalUpdate(s.feeds, s.requests, k, r1, {Delivered});
    CostTotalSameCatalog(s.feeds, t.state.feeds, t.state.requests, {Pending, Approved});
    CostTotalSameCatalog(s.feeds, t.state.feeds, t.state.requests, {Delivered});
  }

  /** Every request asks for a non-negative quantity. */
  predicate QuantitiesNonNegative(requests: seq<FeedRequest>) {
    forall j :: 0 <= j < |requests| ==> RequestedQuantity(requests[j]) >= 0
  }

  /** What every status update keeps: each feed's reservation lies between 0 and its
      stock on hand, requests ask for non-negative quantities, and the ledger holds at
      most one deduction per request. */
  ghost predicate WorkflowInvariant(s: FeedsState) {
    AllStockInvariant(s.feeds) && QuantitiesNonNegative(s.requests) && AtMostOneDeductionEach(s.payments)
  }

  lemma DispatchPreservesInvariant(s: FeedsState, request: FeedRequest, previous: RequestStatus,
                                   newStatus: RequestStatus, cost: int, d: string)
    requires WorkflowInvariant(s) && RequestedQuantity(request) >= 0
    ensures WorkflowInvariant(Dispatch(s, request, previous, newStatus, cost, d).state)
  {
    match newStatus
    case Approved =>
      ReservePreservesStock(s.feeds, request);
    case Delivered =>
      CommitPreservesStock(s.feeds, request);
      PostKeepsAtMostOne(s.payments, request, cost, d);
    case Rejected =>
      ReleasePreservesStock(s.feeds, request);
    case Pending =>
      RestorePreservesStock(s.feeds, request);
      RemoveKeepsAtMostOne(s.payments, request.id);
      ReleasePreservesStock(s.feeds, request);
    case Unrecognized =>
  }

  /** The invariant holds after any status update, successful or not. */
  lemma UpdateStatusPreservesInvariant(s: FeedsState, id: string, newStatus: RequestStatus, d: string)
    requires WorkflowInvariant(s)
    ensures WorkflowInvariant(UpdateStatus(s, id, newStatus, d).state)
  {
    match FindRequest(s.requests, id)
    case None =>
    case Some(k) =>
      var request := s.requests[k];
      var cost := FeedCost(s.feeds, request);
      var recorded := s.(requests := s.requests[k := WithStatus(request, newStatus, cost)]);
      assert QuantitiesNonNegative(recorded.requests) by {
        forall j | 0 <= j < |recorded.requests|
          ensures RequestedQuantity(recorded.requests[j]) >= 0
        {
          if j != k {
            assert recorded.requests[j] == s.requests[j];
          }
        }
      }
      DispatchPreservesInvariant(recorded, request, request.status, newStatus, cost, d);
  }

  /** Approving an already approved request reserves nothing more. */
  lemma ReapprovalReservesNothing(s: FeedsState, id: string, k: nat, d: string)
    requires FindRequest(s.requests, id) == Some(k)
    requires s.requests[k].status == Approved
    ensures var t := UpdateStatus(s, id, Approved, d);
            t.outcome == Pass && t.state.feeds == s.feeds && t.state.payments == s.payments
  {
  }

  /** Delivering twice takes the stock out and posts the deduction once. */
  lemma RedeliveryIsNoOp(s: FeedsState, id: string, k: nat, d: string)
    requires FindRequest(s.requests, id) == Some(k)
    requires s.requests[k].status == Delivered
    ensures var t := UpdateStatus(s, id, Delivered, d);
            t.outcome == Pass && t.state.feeds == s.feeds && t.state.payments == s.payments
  {
  }
}
