/** The request workflow of the feeds page: the ledger of feed deductions a delivery
    posts and a reset removes, and `updateRequestStatus`, which records a request's new
    status and cost and then dispatches on the (previous, new) status pair to the
    inventory operations and the ledger. */
module FeedRequests {
  import opened Basics
  import opened Records
  import opened FeedCatalog
  import opened FeedInventory

  // ----- The deduction ledger (documents of `payments` of type 'feed_deduction') -----

  /** p is a feed deduction posted for the request with this id. */
  predicate IsDeductionFor(p: Payment, requestId: string) {
    p.kind == FeedDeduction && p.feedRequestId == Some(requestId)
  }

  /** How many deductions the ledger holds for the request. */
  function DeductionCount(payments: seq<Payment>, requestId: string): nat {
    if payments == [] then 0
    else (if IsDeductionFor(payments[0], requestId) then 1 else 0) + DeductionCount(payments[1..], requestId)
  }

  /** The query of `createAutomaticDeduction` finds a deduction for the request. */
  predicate HasDeduction(payments: seq<Payment>, requestId: string) {
    exists k :: 0 <= k < |payments| && IsDeductionFor(payments[k], requestId)
  }

  lemma {:induction false} HasDeductionIffCounted(payments: seq<Payment>, requestId: string)
    ensures HasDeduction(payments, requestId) <==> DeductionCount(payments, requestId) > 0
  {
    if payments != [] {
      HasDeductionIffCounted(payments[1..], requestId);
      if HasDeduction(payments[1..], requestId) {
        var k :| 0 <= k < |payments[1..]| && IsDeductionFor(payments[1..][k], requestId);
        assert IsDeductionFor(payments[k + 1], requestId);
      }
      if HasDeduction(payments, requestId) && !IsDeductionFor(payments[0], requestId) {
        var k :| 0 <= k < |payments| && IsDeductionFor(payments[k], requestId);
        assert IsDeductionFor(payments[1..][k - 1], requestId);
      }
    }
  }

  lemma {:induction false} DeductionCountAppend(a: seq<Payment>, b: seq<Payment>, requestId: string)
    ensures DeductionCount(a + b, requestId) == DeductionCount(a, requestId) + DeductionCount(b, requestId)
  {
    if a == [] {
      assert a + b == b;
    } else {
      assert (a + b)[0] == a[0];
      assert (a + b)[1..] == a[1..] + b;
      DeductionCountAppend(a[1..], b, requestId);
    }
  }

  /** The document `createAutomaticDeduction` adds for a delivered request. */
  function DeductionRecord(r: FeedRequest, cost: int, newId: string): (p: Payment)
    ensures IsDeductionFor(p, r.id) && p.farmerId == r.farmerId && p.status == Completed
    ensures OrZero(p.amount) == -Abs(cost) && OrZero(p.amount) <= 0
  {
    Payment(newId, r.farmerId, FeedDeduction, Some(-Abs(cost)), Some(r.id), Completed, None, None, None, None)
  }

  /** `createAutomaticDeduction`: posts a deduction of -|cost| for the request unless the
      ledger already holds one for it. */
  function PostDeduction(payments: seq<Payment>, r: FeedRequest, cost: int, newId: string): (after: seq<Payment>)
    ensures payments <= after && |after| <= |payments| + 1
    ensures DeductionCount(after, r.id) == if DeductionCount(payments, r.id) == 0 then 1 else DeductionCount(payments, r.id)
    ensures |after| == |payments| + 1 ==> after[|payments|] == DeductionRecord(r, cost, newId)
  {
    HasDeductionIffCounted(payments, r.id);
    DeductionCountAppend(payments, [DeductionRecord(r, cost, newId)], r.id);
    if HasDeduction(payments, r.id) then payments else payments + [DeductionRecord(r, cost, newId)]
  }

  /** Posting twice posts once. */
  lemma PostDeductionIdempotent(payments: seq<Payment>, r: FeedRequest, cost: int, newId: string,
                                cost2: int, newId2: string)
    ensures var once := PostDeduction(payments, r, cost, newId);
            PostDeduction(once, r, cost2, newId2) == once
  {
    var once := PostDeduction(payments, r, cost, newId);
    HasDeductionIffCounted(once, r.id);
  }

  /** `removeDeduction`: deletes every deduction of the request and nothing else. */
  function RemoveDeductions(payments: seq<Payment>, requestId: string): (after: seq<Payment>)
    ensures DeductionCount(after, requestId) == 0
    ensures |after| == |payments| - DeductionCount(payments, requestId)
    ensures forall p :: p in after <==> p in payments && !IsDeductionFor(p, requestId)
  {
    if payments == [] then []
    else if IsDeductionFor(payments[0], requestId) then RemoveDeductions(payments[1..], requestId)
    else [payments[0]] + RemoveDeductions(payments[1..], requestId)
  }

  lemma {:induction false} RemoveDeductionsAppend(a: seq<Payment>, b: seq<Payment>, requestId: string)
    ensures RemoveDeductions(a + b, requestId) == RemoveDeductions(a, requestId) + RemoveDeductions(b, requestId)
  {
    if a == [] {
      assert a + b == b;
    } else {
      assert (a + b)[0] == a[0];
      assert (a + b)[1..] == a[1..] + b;
      RemoveDeductionsAppend(a[1..], b, requestId);
    }
  }

  /** Removal over a growing prefix, one payment at a time. */
  lemma RemoveDeductionsPrefixStep(payments: seq<Payment>, k: nat, requestId: string)
    requires k < |payments|
    ensures RemoveDeductions(payments[..k + 1], requestId) ==
            RemoveDeductions(payments[..k], requestId) + (if IsDeductionFor(payments[k], requestId) then [] else [payments[k]])
  {
    assert payments[..k + 1] == payments[..k] + [payments[k]];
    RemoveDeductionsAppend(payments[..k], [payments[k]], requestId);
    assert [payments[k]][1..] == [];
  }

  /** A ledger without deductions for the request loses nothing to a removal. */
  lemma {:induction false} RemoveNothing(payments: seq<Payment>, requestId: string)
    requires DeductionCount(payments, requestId) == 0
    ensures RemoveDeductions(payments, requestId) == payments
  {
    if payments != [] {
      RemoveNothing(payments[1..], requestId);
    }
  }

  /** Posting a deduction and then removing the request's deductions leaves the ledger
      as a removal alone would. */
  lemma PostThenRemove(payments: seq<Payment>, r: FeedRequest, cost: int, newId: string)
    ensures RemoveDeductions(PostDeduction(payments, r, cost, newId), r.id) == RemoveDeductions(payments, r.id)
  {
    HasDeductionIffCounted(payments, r.id);
    if !HasDeduction(payments, r.id) {
      RemoveDeductionsAppend(payments, [DeductionRecord(r, cost, newId)], r.id);
      assert RemoveDeductions([DeductionRecord(r, cost, newId)], r.id) == [];
    }
  }

  /** Removing one request's deductions never adds deductions for another. */
  lemma {:induction false} RemoveKeepsOtherCounts(payments: seq<Payment>, requestId: string, other: string)
    ensures DeductionCount(RemoveDeductions(payments, requestId), other) <= DeductionCount(payments, other)
  {
    if payments != [] {
      RemoveKeepsOtherCounts(payments[1..], requestId, other);
      if !IsDeductionFor(payments[0], requestId) {
        assert RemoveDeductions(payments, requestId) == [payments[0]] + RemoveDeductions(payments[1..], requestId);
        DeductionCountAppend([payments[0]], RemoveDeductions(payments[1..], requestId), other);
      }
    }
  }

  /** The ledger invariant: at most one deduction per request. */
  ghost predicate AtMostOneDeductionEach(payments: seq<Payment>) {
    forall id :: DeductionCount(payments, id) <= 1
  }

  lemma PostKeepsAtMostOne(payments: seq<Payment>, r: FeedRequest, cost: int, newId: string)
    requires AtMostOneDeductionEach(payments)
    ensures AtMostOneDeductionEach(PostDeduction(payments, r, cost, newId))
  {
    var after := PostDeduction(payments, r, cost, newId);
    forall id
      ensures DeductionCount(after, id) <= 1
    {
      if after != payments {
        DeductionCountAppend(payments, [DeductionRecord(r, cost, newId)], id);
        assert after == payments + [DeductionRecord(r, cost, newId)];
      }
    }
  }

  lemma RemoveKeepsAtMostOne(payments: seq<Payment>, requestId: string)
    requires AtMostOneDeductionEach(payments)
    ensures AtMostOneDeductionEach(RemoveDeductions(payments, requestId))
  {
    forall id
      ensures DeductionCount(RemoveDeductions(payments, requestId), id) <= 1
    {
      RemoveKeepsOtherCounts(payments, requestId, id);
    }
  }

  method CreateAutomaticDeduction(db: Database, request: FeedRequest, cost: int, newId: string)
    modifies db`payments
    ensures db.payments == PostDeduction(old(db.payments), request, cost, newId)
  {
    var existing := HasDeduction(db.payments, request.id);
    if !existing {
      db.payments := db.payments + [Payment(newId, request.farmerId, FeedDeduction, Some(-Abs(cost)), Some(request.id),
                                            Completed, None, None, None, None)];
    }
  }

  /** The loop of `removeDeduction` over the query result: keeps every payment that is
      not a deduction of the request, in order. */
  method KeepOtherPayments(payments: seq<Payment>, feedRequestId: string) returns (kept: seq<Payment>)
    ensures kept == RemoveDeductions(payments, feedRequestId)
  {
    kept := [];
    var k := 0;
    while k < |payments|
      invariant 0 <= k <= |payments|
      invariant kept == RemoveDeductions(payments[..k], feedRequestId)
    {
      RemoveDeductionsPrefixStep(payments, k, feedRequestId);
      if !IsDeductionFor(payments[k], feedRequestId) {
        kept := kept + [payments[k]];
      }
      k := k + 1;
    }
    assert payments[..k] == payments;
  }

  method RemoveDeduction(db: Database, feedRequestId: string)
    modifies db`payments
    ensures db.payments == RemoveDeductions(old(db.payments), feedRequestId)
  {
    db.payments := KeepOtherPayments(db.payments, feedRequestId);
  }

  // ----- updateRequestStatus -----

  /** The three collections the feeds page works on. */
  datatype FeedsState = FeedsState(feeds: seq<Feed>, requests: seq<FeedRequest>, payments: seq<Payment>)

  /** The state after a status update, and whether the update reported an error. */
  datatype Transition = Transition(state: FeedsState, outcome: Outcome<FeedError>)

  function FeedsView(db: Database): FeedsState
    reads db
  {
    FeedsState(db.feeds, db.feedRequests, db.payments)
  }

  /** Position of the first request with the given id. It has the shape of
      `FeedInventory.FindFeed` but looks up a request document (the page's
      `feedRequests.find` by id) rather than a feed, and the two record types share no
      common type through which one lookup could read both ids. */
  function FindRequest(requests: seq<FeedRequest>, id: string): (found: Option<nat>)
    ensures found.Some? ==> found.value < |requests| && requests[found.value].id == id
    ensures found.Some? ==> forall j :: 0 <= j < found.value ==> requests[j].id != id
    ensures found.None? <==> forall j :: 0 <= j < |requests| ==> requests[j].id != id
  {
    if requests == [] then None
    else if requests[0].id == id then Some(0)
    else match FindRequest(requests[1..], id)
      case None => None
      case Some(i) => Some(i + 1)
  }

  /** Rewriting the found request under the same id leaves it found at the same place. */
  lemma FindRequestAfterUpdate(requests: seq<FeedRequest>, id: string, k: nat, r: FeedRequest)
    requires FindRequest(requests, id) == Some(k) && r.id == id
    ensures FindRequest(requests[k := r], id) == Some(k)
  {
    var found := FindRequest(requests[k := r], id);
    assert requests[k := r][k].id == id;
  }

  /** The request the dispatcher acts on, with the status and cost just written. */
  function WithStatus(r: FeedRequest, newStatus: RequestStatus, cost: int): FeedRequest {
    r.(status := newStatus, cost := Some(cost))
  }

  /** Two snapshots of one request that ask for the same feed in the same quantity. */
  predicate SameDemand(a: FeedRequest, b: FeedRequest) {
    a.id == b.id && a.farmerId == b.farmerId && a.feedTypeName == b.feedTypeName &&
    a.feedType == b.feedType && a.quantity == b.quantity
  }

  /** Whether a feed matches a request reads only the request's type name and key. */
  lemma SameTermsSameMatches(f: Feed, a: FeedRequest, b: FeedRequest)
    requires a.feedTypeName == b.feedTypeName && a.feedType == b.feedType
    ensures Matches(f, a) == Matches(f, b)
  {
  }

  /** The lookup reads only the request's type name and type key. */
  lemma {:induction false} SameDemandSameMatch(feeds: seq<Feed>, a: FeedRequest, b: FeedRequest)
    requires SameDemand(a, b)
    ensures FindMatchingFeed(feeds, a) == FindMatchingFeed(feeds, b)
  {
    if feeds != [] {
      SameTermsSameMatches(feeds[0], a, b);
      SameDemandSameMatch(feeds[1..], a, b);
    }
  }

  /** What the `switch` of `updateRequestStatus` does after the status write, given the
      request as it was read before the write. */
  function Dispatch(s: FeedsState, request: FeedRequest, previous: RequestStatus, newStatus: RequestStatus,
                    cost: int, deductionId: string): (t: Transition)
    ensures t.state.requests == s.requests
    ensures |t.state.feeds| == |s.feeds| && SameCatalog(s.feeds, t.state.feeds)
    ensures t.outcome.Fail? ==> t.state.feeds == s.feeds && t.state.payments == s.payments
  {
    match newStatus
    case Approved =>
      if previous != Approved then
        var step := Reserve(s.feeds, request);
        Transition(s.(feeds := step.feeds), step.outcome)
      else Transition(s, Pass)
    case Delivered =>
      if previous != Delivered then
        var step := Commit(s.feeds, request);
        if step.outcome.Fail? then Transition(s, step.outcome)
        else Transition(s.(feeds := step.feeds, payments := PostDeduction(s.payments, request, cost, deductionId)), Pass)
      else Transition(s, Pass)
    case Rejected =>
      if previous == Approved then Transition(s.(feeds := Release(s.feeds, request)), Pass)
      else Transition(s, Pass)
    case Pending =>
      if previous == Delivered then
        Transition(s.(feeds := Restore(s.feeds, request), payments := RemoveDeductions(s.payments, request.id)), Pass)
      else if previous == Approved then Transition(s.(feeds := Release(s.feeds, request)), Pass)
      else Transition(s, Pass)
    case Unrecognized => Transition(s, Pass)
  }

  /** `updateRequestStatus(requestId, newStatus)`. `deductionId` is the id the database
      assigns to a deduction document if one is added. The status and the cost are
      written before anything else, so they stay written when a later step fails. */
  function UpdateStatus(s: FeedsState, requestId: string, newStatus: RequestStatus, deductionId: string): (t: Transition)
    ensures FindRequest(s.requests, requestId).None? ==> t == Transition(s, Fail(RequestNotFound))
    ensures FindRequest(s.requests, requestId).Some? ==>
              var k := FindRequest(s.requests, requestId).value;
              t.state.requests == s.requests[k := WithStatus(s.requests[k], newStatus, FeedCost(s.feeds, s.requests[k]))]
    ensures |t.state.feeds| == |s.feeds| && SameCatalog(s.feeds, t.state.feeds)
    ensures t.outcome.Fail? ==> t.state.feeds == s.feeds && t.state.payments == s.payments
  {
    match FindRequest(s.requests, requestId)
    case None => Transition(s, Fail(RequestNotFound))
    case Some(k) =>
      var request := s.requests[k];
      var cost := FeedCost(s.feeds, request);
      var recorded := s.(requests := s.requests[k := WithStatus(request, newStatus, cost)]);
      Dispatch(recorded, request, request.status, newStatus, cost, deductionId)
  }

  method UpdateRequestStatus(db: Database, requestId: string, newStatus: RequestStatus, deductionId: string)
    returns (outcome: Outcome<FeedError>)
    modifies db`feeds, db`feedRequests, db`payments
    ensures Transition(FeedsView(db), outcome) == UpdateStatus(old(FeedsView(db)), requestId, newStatus, deductionId)
  {
    var found := FindRequest(db.feedRequests, requestId);
    if found.None? {
      return Fail(RequestNotFound);
    }
    var k := found.value;
    var request := db.feedRequests[k];
    var feedCost := FeedCost(db.feeds, request);
    var previousStatus := request.status;
    db.feedRequests := db.feedRequests[k := request.(status := newStatus, cost := Some(feedCost))];
    outcome := Pass;
    match newStatus {
      case Approved =>
        if previousStatus != Approved {
          outcome := ReserveFeedInInventory(db, request);
        }
      case Delivered =>
        if previousStatus != Delivered {
          outcome := UpdateInventoryOnDelivery(db, request);
          if outcome.Pass? {
            CreateAutomaticDeduction(db, request, feedCost, deductionId);
          }
        }
      case Rejected =>
        if previousStatus == Approved {
          ReleaseReservedFeed(db, request);
        }
      case Pending =>
        if previousStatus == Delivered {
          RestoreInventoryOnRevert(db, request);
          RemoveDeduction(db, request.id);
        }
        if previousStatus == Approved {
          ReleaseReservedFeed(db, request);
        }
      case Unrecognized =>
    }
  }
}
