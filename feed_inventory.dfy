/** The inventory side of the feeds page: the four read-modify-write operations on a
    feed's stock counters (reserve on approval, release on rejection or reset, commit on
    delivery, restore when a delivery is reverted), and the feed record the edit form
    writes. Each operation is a method on the database whose new state is given by a
    function of the old state; the properties are proved about the functions. */
module FeedInventory {
  import opened Basics
  import opened Records
  import opened FeedCatalog

  /** The errors the feeds page raises. */
  datatype FeedError = RequestNotFound | NoMatchingFeed | InsufficientStock(available: int, requested: int)

  /** The inventory after an operation, and whether the operation raised an error. */
  datatype InventoryStep = InventoryStep(feeds: seq<Feed>, outcome: Outcome<FeedError>)

  /** The stock invariant of a feed: reservations never exceed stock on hand and
      neither counter is negative. */
  predicate StockInvariant(f: Feed) {
    0 <= ReservedOf(f) <= OnHand(f)
  }

  predicate AllStockInvariant(feeds: seq<Feed>) {
    forall i :: 0 <= i < |feeds| ==> StockInvariant(feeds[i])
  }

  /** The derived field `availableQuantity` agrees with the two counters. */
  predicate AvailableFieldAgrees(f: Feed) {
    f.availableQuantity == Some(OnHand(f) - ReservedOf(f))
  }

  /** Only position i may differ between the two inventories. */
  predicate OthersUnchanged(a: seq<Feed>, b: seq<Feed>, i: int) {
    |a| == |b| && forall j :: 0 <= j < |a| && j != i ==> a[j] == b[j]
  }

  /** Two records of the same feed with the same identity, labels and price. */
  predicate SameLabels(f: Feed, g: Feed) {
    f.id == g.id && f.name == g.name && f.feedType == g.feedType && f.pricePerUnit == g.pricePerUnit
  }

  /** A feed record after a stock operation, or the error that refused it. */
  datatype FeedUpdate = Updated(feed: Feed) | Refused(error: FeedError)

  /** The counters `reserveFeedInInventory` writes for the matched feed: the reservation
      grows by exactly the requested quantity, unless less than that is available. */
  function ReserveFeed(f: Feed, q: int): (u: FeedUpdate)
    ensures u.Updated? <==> q <= Available(f)
    ensures u.Refused? ==> u.error == InsufficientStock(Available(f), q)
    ensures u.Updated? ==> SameLabels(f, u.feed) && OnHand(u.feed) == OnHand(f) &&
                           ReservedOf(u.feed) == ReservedOf(f) + q && AvailableFieldAgrees(u.feed)
    ensures u.Updated? && StockInvariant(f) && q >= 0 ==> StockInvariant(u.feed)
  {
    var currentAvailable := OnHand(f) - ReservedOf(f);
    if currentAvailable < q then Refused(InsufficientStock(currentAvailable, q))
    else
      var newReserved := ReservedOf(f) + q;
      Updated(f.(reservedQuantity := Some(newReserved), availableQuantity := Some(OnHand(f) - newReserved)))
  }

  /** The counters `releaseReservedFeed` writes: the reservation shrinks by the requested
      quantity but never below 0; stock on hand is untouched. */
  function ReleaseFeed(f: Feed, q: int): (g: Feed)
    ensures SameLabels(f, g) && OnHand(g) == OnHand(f)
    ensures ReservedOf(g) == Max(0, ReservedOf(f) - q) && AvailableFieldAgrees(g)
    ensures StockInvariant(f) && q >= 0 ==> StockInvariant(g)
  {
    var newReserved := Max(0, ReservedOf(f) - q);
    f.(reservedQuantity := Some(newReserved), availableQuantity := Some(OnHand(f) - newReserved))
  }

  /** The counters `updateInventoryOnDelivery` writes: stock on hand and the reservation
      both shrink by the requested quantity (the reservation clamped at 0), unless less
      than that is on hand. */
  function CommitFeed(f: Feed, q: int): (u: FeedUpdate)
    ensures u.Updated? <==> q <= OnHand(f)
    ensures u.Refused? ==> u.error == InsufficientStock(OnHand(f), q)
    ensures u.Updated? ==> SameLabels(f, u.feed) && OnHand(u.feed) == OnHand(f) - q &&
                           ReservedOf(u.feed) == Max(0, ReservedOf(f) - q) && AvailableFieldAgrees(u.feed)
    ensures u.Updated? && StockInvariant(f) ==> StockInvariant(u.feed)
  {
    if OnHand(f) < q then Refused(InsufficientStock(OnHand(f), q))
    else
      var newQuantity := OnHand(f) - q;
      var newReserved := Max(0, ReservedOf(f) - q);
      Updated(f.(quantity := Some(newQuantity), reservedQuantity := Some(newReserved),
                 availableQuantity := Some(newQuantity - newReserved)))
  }

  /** The counters `restoreInventoryOnRevert` writes: stock on hand grows by the
      requested quantity; the reservation field is not written. */
  function RestoreFeed(f: Feed, q: int): (g: Feed)
    ensures SameLabels(f, g) && OnHand(g) == OnHand(f) + q
    ensures g.reservedQuantity == f.reservedQuantity && AvailableFieldAgrees(g)
    ensures StockInvariant(f) && q >= 0 ==> StockInvariant(g)
  {
    var newQuantity := OnHand(f) + q;
    f.(quantity := Some(newQuantity), availableQuantity := Some(newQuantity - ReservedOf(f)))
  }

  /** Approving a request is reversible at the level of one feed: reserve, then commit,
      then restore gives back the original stock on hand and reservation. */
  lemma ReserveCommitRestoreRoundTrip(f: Feed, q: int)
    requires StockInvariant(f) && q <= Available(f)
    ensures var reserved := ReserveFeed(f, q).feed;
            CommitFeed(reserved, q).Updated? &&
            var restored := RestoreFeed(CommitFeed(reserved, q).feed, q);
            OnHand(restored) == OnHand(f) && ReservedOf(restored) == ReservedOf(f)
  {
  }

  /** `reserveFeedInInventory`: reserves stock of the first matching feed, or raises an
      error when no feed matches or too little is available. */
  function Reserve(feeds: seq<Feed>, r: FeedRequest): (step: InventoryStep)
    ensures |step.feeds| == |feeds| && SameCatalog(feeds, step.feeds)
    ensures step.outcome.Fail? ==> step.feeds == feeds
    ensures FindMatchingFeed(feeds, r).None? ==> step.outcome == Fail(NoMatchingFeed)
    ensures FindMatchingFeed(feeds, r).Some? ==>
              var i := FindMatchingFeed(feeds, r).value;
              match ReserveFeed(feeds[i], RequestedQuantity(r))
              case Refused(e) => step.outcome == Fail(e)
              case Updated(g) => step.outcome == Pass && step.feeds == feeds[i := g]
  {
    match FindMatchingFeed(feeds, r)
    case None => InventoryStep(feeds, Fail(NoMatchingFeed))
    case Some(i) =>
      match ReserveFeed(feeds[i], RequestedQuantity(r))
      case Refused(e) => InventoryStep(feeds, Fail(e))
      case Updated(g) => InventoryStep(feeds[i := g], Pass)
  }

  /** `releaseReservedFeed`: releases reserved stock of the first matching feed; without
      a matching feed it only warns and changes nothing. */
  function Release(feeds: seq<Feed>, r: FeedRequest): (after: seq<Feed>)
    ensures |after| == |feeds| && SameCatalog(feeds, after)
    ensures FindMatchingFeed(feeds, r).None? ==> after == feeds
    ensures FindMatchingFeed(feeds, r).Some? ==>
              var i := FindMatchingFeed(feeds, r).value;
              after == feeds[i := ReleaseFeed(feeds[i], RequestedQuantity(r))]
  {
    match FindMatchingFeed(feeds, r)
    case None => feeds
    case Some(i) => feeds[i := ReleaseFeed(feeds[i], RequestedQuantity(r))]
  }

  /** `updateInventoryOnDelivery`: takes delivered stock out of the first matching feed,
      or raises an error when no feed matches or too little is on hand. */
  function Commit(feeds: seq<Feed>, r: FeedRequest): (step: InventoryStep)
    ensures |step.feeds| == |feeds| && SameCatalog(feeds, step.feeds)
    ensures step.outcome.Fail? ==> step.feeds == feeds
    ensures FindMatchingFeed(feeds, r).None? ==> step.outcome == Fail(NoMatchingFeed)
    ensures FindMatchingFeed(feeds, r).Some? ==>
              var i := FindMatchingFeed(feeds, r).value;
              match CommitFeed(feeds[i], RequestedQuantity(r))
              case Refused(e) => step.outcome == Fail(e)
              case Updated(g) => step.outcome == Pass && step.feeds == feeds[i := g]
  {
    match FindMatchingFeed(feeds, r)
    case None => InventoryStep(feeds, Fail(NoMatchingFeed))
    case Some(i) =>
      match CommitFeed(feeds[i], RequestedQuantity(r))
      case Refused(e) => InventoryStep(feeds, Fail(e))
      case Updated(g) => InventoryStep(feeds[i := g], Pass)
  }

  /** `restoreInventoryOnRevert`: puts stock back into the first matching feed; without
      a matching feed it only warns and changes nothing. */
  function Restore(feeds: seq<Feed>, r: FeedRequest): (after: seq<Feed>)
    ensures |after| == |feeds| && SameCatalog(feeds, after)
    ensures FindMatchingFeed(feeds, r).None? ==> after == feeds
    ensures FindMatchingFeed(feeds, r).Some? ==>
              var i := FindMatchingFeed(feeds, r).value;
              after == feeds[i := RestoreFeed(feeds[i], RequestedQuantity(r))]
  {
    match FindMatchingFeed(feeds, r)
    case None => feeds
    case Some(i) => feeds[i := RestoreFeed(feeds[i], RequestedQuantity(r))]
  }

  /** Reserving a non-negative quantity keeps every feed's reservation within its stock:
      the check that enough is available is exactly what the invariant needs. */
  lemma ReservePreservesStock(feeds: seq<Feed>, r: FeedRequest)
    requires AllStockInvariant(feeds) && RequestedQuantity(r) >= 0
    ensures AllStockInvariant(Reserve(feeds, r).feeds)
  {
    var step := Reserve(feeds, r);
    if step.outcome.Pass? {
      var i := FindMatchingFeed(feeds, r).value;
      forall j | 0 <= j < |step.feeds|
        ensures StockInvariant(step.feeds[j])
      {
        if j != i {
          assert step.feeds[j] == feeds[j];
        }
      }
    }
  }

  /** Releasing a non-negative quantity keeps the invariant: the clamp keeps the
      reservation at or above 0 and it only shrinks. */
  lemma ReleasePreservesStock(feeds: seq<Feed>, r: FeedRequest)
    requires AllStockInvariant(feeds) && RequestedQuantity(r) >= 0
    ensures AllStockInvariant(Release(feeds, r))
  {
    var after := Release(feeds, r);
    if FindMatchingFeed(feeds, r).Some? {
      var i := FindMatchingFeed(feeds, r).value;
      forall j | 0 <= j < |after|
        ensures StockInvariant(after[j])
      {
        if j != i {
          assert after[j] == feeds[j];
        }
      }
    }
  }

  /** Committing a delivery keeps the invariant for any requested quantity: it refuses
      to take more than is on hand, and the reservation shrinks by as much as the stock. */
  lemma CommitPreservesStock(feeds: seq<Feed>, r: FeedRequest)
    requires AllStockInvariant(feeds)
    ensures AllStockInvariant(Commit(feeds, r).feeds)
  {
    var step := Commit(feeds, r);
    if step.outcome.Pass? {
      var i := FindMatchingFeed(feeds, r).value;
      forall j | 0 <= j < |step.feeds|
        ensures StockInvariant(step.feeds[j])
      {
        if j != i {
          assert step.feeds[j] == feeds[j];
        }
      }
    }
  }

  /** Restoring a non-negative quantity keeps the invariant: stock only grows. */
  lemma RestorePreservesStock(feeds: seq<Feed>, r: FeedRequest)
    requires AllStockInvariant(feeds) && RequestedQuantity(r) >= 0
    ensures AllStockInvariant(Restore(feeds, r))
  {
    var after := Restore(feeds, r);
    if FindMatchingFeed(feeds, r).Some? {
      var i := FindMatchingFeed(feeds, r).value;
      forall j | 0 <= j < |after|
        ensures StockInvariant(after[j])
      {
        if j != i {
          assert after[j] == feeds[j];
        }
      }
    }
  }

  /** Releasing twice clamps at zero: the reservation ends at max(0, reserved - 2q). */
  lemma ReleaseTwice(feeds: seq<Feed>, r: FeedRequest, i: nat)
    requires RequestedQuantity(r) >= 0 && FindMatchingFeed(feeds, r) == Some(i)
    ensures var twice := Release(Release(feeds, r), r);
            i < |twice| && ReservedOf(twice[i]) == Max(0, ReservedOf(feeds[i]) - 2 * RequestedQuantity(r))
  {
    var q := RequestedQuantity(r);
    var once := Release(feeds, r);
    SameCatalogSameMatch(feeds, once, r);
    var twice := Release(once, r);
    assert ReservedOf(twice[i]) == Max(0, ReservedOf(once[i]) - q);
  }

  /** Reserving everything that is available leaves the feed out of stock. */
  lemma ReserveAllAvailableIsOutOfStock(feeds: seq<Feed>, r: FeedRequest)
    requires FindMatchingFeed(feeds, r).Some?
    requires RequestedQuantity(r) == Available(feeds[FindMatchingFeed(feeds, r).value])
    ensures var i := FindMatchingFeed(feeds, r).value;
            Reserve(feeds, r).outcome == Pass && GetStockStatus(Reserve(feeds, r).feeds[i]).level == OutOfStock
  {
  }

  // The operations as the page performs them: read the matched feed, compute the new
  // counters, write them back.

  method ReserveFeedInInventory(db: Database, request: FeedRequest) returns (outcome: Outcome<FeedError>)
    modifies db`feeds
    ensures InventoryStep(db.feeds, outcome) == Reserve(old(db.feeds), request)
  {
    var found := FindMatchingFeed(db.feeds, request);
    if found.None? {
      return Fail(NoMatchingFeed);
    }
    var i := found.value;
    var matchingFeed := db.feeds[i];
    var currentQuantity := OrZero(matchingFeed.quantity);
    var requestedQuantity := OrZero(request.quantity);
    var currentReserved := OrZero(matchingFeed.reservedQuantity);
    var currentAvailable := currentQuantity - currentReserved;
    if currentAvailable < requestedQuantity {
      assert ReserveFeed(matchingFeed, requestedQuantity) == Refused(InsufficientStock(currentAvailable, requestedQuantity));
      return Fail(InsufficientStock(currentAvailable, requestedQuantity));
    }
    var newReserved := currentReserved + requestedQuantity;
    var newAvailable := currentQuantity - newReserved;
    var updated := matchingFeed.(reservedQuantity := Some(newReserved), availableQuantity := Some(newAvailable));
    assert ReserveFeed(matchingFeed, requestedQuantity) == Updated(updated);
    assert Reserve(db.feeds, request) == InventoryStep(db.feeds[i := updated], Pass);
    db.feeds := db.feeds[i := updated];
    outcome := Pass;
  }

  method ReleaseReservedFeed(db: Database, request: FeedRequest)
    modifies db`feeds
    ensures db.feeds == Release(old(db.feeds), request)
  {
    var found := FindMatchingFeed(db.feeds, request);
    if found.None? {
      return;
    }
    var i := found.value;
    var matchingFeed := db.feeds[i];
    var currentQuantity := OrZero(matchingFeed.quantity);
    var currentReserved := OrZero(matchingFeed.reservedQuantity);
    var requestedQuantity := OrZero(request.quantity);
    var newReserved := Max(0, currentReserved - requestedQuantity);
    var newAvailable := currentQuantity - newReserved;
    db.feeds := db.feeds[i := matchingFeed.(reservedQuantity := Some(newReserved), availableQuantity := Some(newAvailable))];
  }

  method UpdateInventoryOnDelivery(db: Database, request: FeedRequest) returns (outcome: Outcome<FeedError>)
    modifies db`feeds
    ensures InventoryStep(db.feeds, outcome) == Commit(old(db.feeds), request)
  {
    var found := FindMatchingFeed(db.feeds, request);
    if found.None? {
      return Fail(NoMatchingFeed);
    }
    var i := found.value;
    var matchingFeed := db.feeds[i];
    var currentQuantity := OrZero(matchingFeed.quantity);
    var requestedQuantity := OrZero(request.quantity);
    var currentReserved := OrZero(matchingFeed.reservedQuantity);
    if currentQuantity < requestedQuantity {
      assert CommitFeed(matchingFeed, requestedQuantity) == Refused(InsufficientStock(currentQuantity, requestedQuantity));
      return Fail(InsufficientStock(currentQuantity, requestedQuantity));
    }
    var newQuantity := currentQuantity - requestedQuantity;
    var newReserved := Max(0, currentReserved - requestedQuantity);
    var newAvailable := newQuantity - newReserved;
    var updated := matchingFeed.(quantity := Some(newQuantity), reservedQuantity := Some(newReserved),
                                 availableQuantity := Some(newAvailable));
    assert CommitFeed(matchingFeed, requestedQuantity) == Updated(updated);
    assert Commit(db.feeds, request) == InventoryStep(db.feeds[i := updated], Pass);
    db.feeds := db.feeds[i := updated];
    outcome := Pass;
  }

  method RestoreInventoryOnRevert(db: Database, request: FeedRequest)
    modifies db`feeds
    ensures db.feeds == Restore(old(db.feeds), request)
  {
    var found := FindMatchingFeed(db.feeds, request);
    if found.None? {
      return;
    }
    var i := found.value;
    var matchingFeed := db.feeds[i];
    var currentQuantity := OrZero(matchingFeed.quantity);
    var requestedQuantity := OrZero(request.quantity);
    var currentReserved := OrZero(matchingFeed.reservedQuantity);
    var newQuantity := currentQuantity + requestedQuantity;
    var newAvailable := newQuantity - currentReserved;
    db.feeds := db.feeds[i := matchingFeed.(quantity := Some(newQuantity), availableQuantity := Some(newAvailable))];
  }

  /** The fields of the feed form. An empty quantity field is None; a filled-in number
      is already parsed. */
  datatype FeedForm = FeedForm(
    name: string,
    feedType: string,
    unit: string,
    quantity: Option<int>,
    pricePerUnit: Option<int>,
    minStockLevel: Option<int>)

  datatype FormError = MissingRequiredField | UnknownFeed

  /** The form's required fields are filled in. */
  predicate FormComplete(form: FeedForm) {
    form.name != "" && form.feedType != "" && form.quantity.Some?
  }

  /** The record the add branch of the form writes: nothing reserved, all available. */
  function NewFeedRecord(form: FeedForm, id: string): (f: Feed)
    ensures OnHand(f) == OrZero(form.quantity) && ReservedOf(f) == 0 && AvailableFieldAgrees(f)
    ensures OrZero(form.quantity) >= 0 ==> StockInvariant(f)
  {
    var q := OrZero(form.quantity);
    Feed(id, Some(form.name), Some(form.feedType), form.unit, Some(q), Some(0), Some(q),
         Some(OrZero(form.pricePerUnit)), Some(OrZero(form.minStockLevel)))
  }

  /** The record the edit branch of the form writes over an existing feed, as written:
      the reservation is reset to 0 while `availableQuantity` is computed against the
      old reservation. */
  function EditedFeed(existing: Feed, form: FeedForm): (f: Feed)
    ensures f.id == existing.id && OnHand(f) == OrZero(form.quantity) && ReservedOf(f) == 0
    ensures f.availableQuantity == Some(OrZero(form.quantity) - ReservedOf(existing))
  {
    var q := OrZero(form.quantity);
    Feed(existing.id, Some(form.name), Some(form.feedType), form.unit, Some(q), Some(0),
         Some(q - ReservedOf(existing)), Some(OrZero(form.pricePerUnit)), Some(OrZero(form.minStockLevel)))
  }

  /** Editing a feed that holds a reservation drops the reservation, and the stored
      `availableQuantity` then disagrees with quantity minus reserved. */
  lemma EditLosesReservation(existing: Feed, form: FeedForm)
    requires ReservedOf(existing) != 0
    ensures ReservedOf(EditedFeed(existing, form)) == 0
    ensures !AvailableFieldAgrees(EditedFeed(existing, form))
  {
  }

  /** The edit as its own comment describes it: the existing reservation is kept, so
      the available quantity is stock minus what stays reserved. */
  function EditedFeedKeepingReservation(existing: Feed, form: FeedForm): (f: Feed)
    ensures f.id == existing.id && OnHand(f) == OrZero(form.quantity)
    ensures ReservedOf(f) == ReservedOf(existing) && AvailableFieldAgrees(f)
    ensures 0 <= ReservedOf(existing) <= OrZero(form.quantity) ==> StockInvariant(f)
  {
    var q := OrZero(form.quantity);
    Feed(existing.id, Some(form.name), Some(form.feedType), form.unit, Some(q), Some(ReservedOf(existing)),
         Some(q - ReservedOf(existing)), Some(OrZero(form.pricePerUnit)), Some(OrZero(form.minStockLevel)))
  }

  /** Position of the first feed with the given id. */
  function FindFeed(feeds: seq<Feed>, id: string): (found: Option<nat>)
    ensures found.Some? ==> found.value < |feeds| && feeds[found.value].id == id
    ensures found.Some? ==> forall j :: 0 <= j < found.value ==> feeds[j].id != id
    ensures found.None? <==> forall j :: 0 <= j < |feeds| ==> feeds[j].id != id
  {
    if feeds == [] then None
    else if feeds[0].id == id then Some(0)
    else match FindFeed(feeds[1..], id)
      case None => None
      case Some(i) => Some(i + 1)
  }

  /** The edit branch of `handleSubmit`: refuses an incomplete form, and overwrites the
      selected feed's record. */
  method EditFeed(db: Database, selectedId: string, form: FeedForm) returns (outcome: Outcome<FormError>)
    modifies db`feeds
    ensures !FormComplete(form) ==> outcome == Fail(MissingRequiredField) && db.feeds == old(db.feeds)
    ensures FormComplete(form) && FindFeed(old(db.feeds), selectedId).None? ==>
              outcome == Fail(UnknownFeed) && db.feeds == old(db.feeds)
    ensures FormComplete(form) && FindFeed(old(db.feeds), selectedId).Some? ==>
              var i := FindFeed(old(db.feeds), selectedId).value;
              outcome == Pass && db.feeds == old(db.feeds)[i := EditedFeed(old(db.feeds)[i], form)]
  {
    if !(form.name != "" && form.feedType != "" && form.quantity.Some?) {
      return Fail(MissingRequiredField);
    }
    var found := FindFeed(db.feeds, selectedId);
    if found.None? {
      return Fail(UnknownFeed);
    }
    var i := found.value;
    var existingFeed := db.feeds[i];
    var currentReserved := OrZero(existingFeed.reservedQuantity);
    var quantity := OrZero(form.quantity);
    db.feeds := db.feeds[i := Feed(selectedId, Some(form.name), Some(form.feedType), form.unit, Some(quantity), Some(0),
                                   Some(quantity - currentReserved), Some(OrZero(form.pricePerUnit)),
                                   Some(OrZero(form.minStockLevel)))];
    outcome := Pass;
  }
}
