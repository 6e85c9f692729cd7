/** The pure part of the feeds page: how a request finds its feed in the inventory,
    what a request costs, the stock status shown for a feed, and the cost totals. */
module FeedCatalog {
  import opened Basics
  import opened Records

  /** `request.quantity || 0` */
  function RequestedQuantity(r: FeedRequest): int {
    OrZero(r.quantity)
  }

  /** `feed.quantity || 0`: stock on hand. */
  function OnHand(f: Feed): int {
    OrZero(f.quantity)
  }

  /** `feed.reservedQuantity || 0`: stock held for approved requests. */
  function ReservedOf(f: Feed): int {
    OrZero(f.reservedQuantity)
  }

  /** On-hand stock not held by a reservation. */
  function Available(f: Feed): int {
    OnHand(f) - ReservedOf(f)
  }

  /** A JavaScript string that is truthy: present and non-empty. */
  predicate Truthy(s: Option<string>) {
    s.Some? && s.value != ""
  }

  /** First rule: the feed's type equals the request's type name, ignoring case. */
  predicate MatchesTypeName(f: Feed, r: FeedRequest) {
    Truthy(r.feedTypeName) && f.feedType.Some? && Lower(f.feedType.value) == Lower(r.feedTypeName.value)
  }

  /** Second rule: the feed's type contains the request's type key, ignoring case. */
  predicate MatchesTypeKey(f: Feed, r: FeedRequest) {
    Truthy(r.feedType) && f.feedType.Some? && Contains(Lower(f.feedType.value), Lower(r.feedType.value))
  }

  /** What the third rule searches for: `request.feedTypeName?.toLowerCase()`, which is
      `undefined` when the field is missing, and `includes` turns that into the
      string "undefined". */
  function NameNeedle(r: FeedRequest): string {
    match r.feedTypeName
    case Some(n) => Lower(n)
    case None => "undefined"
  }

  /** Third rule: the feed's name contains the request's type name, ignoring case. */
  predicate MatchesName(f: Feed, r: FeedRequest) {
    f.name.Some? && Contains(Lower(f.name.value), NameNeedle(r))
  }

  /** The predicate `findMatchingFeed` passes to `find`. */
  predicate Matches(f: Feed, r: FeedRequest) {
    MatchesTypeName(f, r) || MatchesTypeKey(f, r) || MatchesName(f, r)
  }

  /** `findMatchingFeed`: the position of the first feed, in list order, that matches
      the request, or None when no feed does. */
  function FindMatchingFeed(feeds: seq<Feed>, r: FeedRequest): (found: Option<nat>)
    ensures found.Some? ==> found.value < |feeds| && Matches(feeds[found.value], r)
    ensures found.Some? ==> forall j :: 0 <= j < found.value ==> !Matches(feeds[j], r)
    ensures found.None? <==> forall j :: 0 <= j < |feeds| ==> !Matches(feeds[j], r)
  {
    if feeds == [] then None
    else if Matches(feeds[0], r) then Some(0)
    else match FindMatchingFeed(feeds[1..], r)
      case None => None
      case Some(i) => Some(i + 1)
  }

  /** The lookup does not depend on the case in which the request spells its feed. */
  lemma MatchingIgnoresRequestCase(f: Feed, r: FeedRequest)
    ensures Matches(f, r) == Matches(f, r.(feedTypeName := LowerField(r.feedTypeName), feedType := LowerField(r.feedType)))
  {
    if r.feedTypeName.Some? {
      LowerIdempotent(r.feedTypeName.value);
    }
    if r.feedType.Some? {
      LowerIdempotent(r.feedType.value);
    }
  }

  function LowerField(s: Option<string>): Option<string> {
    match s
    case Some(v) => Some(Lower(v))
    case None => None
  }

  /** An empty type name matches every feed that has a name. */
  lemma EmptyTypeNameMatchesAnyNamedFeed(f: Feed, r: FeedRequest)
    requires r.feedTypeName == Some("") && f.name.Some?
    ensures Matches(f, r)
  {
    ContainsEmpty(Lower(f.name.value));
  }

  /** A request without a type name is matched by name against the text "undefined":
      every feed whose name lower-cases to "undefined" matches it. */
  lemma MissingTypeNameMatchesUndefinedName(f: Feed, r: FeedRequest)
    requires r.feedTypeName.None? && f.name.Some? && Lower(f.name.value) == "undefined"
    ensures Matches(f, r)
  {
    ContainsSelf("undefined");
  }

  /** A feed with neither a type nor a name matches nothing. */
  lemma UnlabelledFeedMatchesNothing(f: Feed, r: FeedRequest)
    requires f.name.None? && f.feedType.None?
    ensures !Matches(f, r)
  {
  }

  /** Two inventories list the same feeds, with the same names, types and prices, in the
      same order, whatever their stock counters say. */
  predicate SameCatalog(a: seq<Feed>, b: seq<Feed>) {
    |a| == |b| &&
    forall i :: 0 <= i < |a| ==>
      a[i].id == b[i].id && a[i].name == b[i].name && a[i].feedType == b[i].feedType &&
      a[i].pricePerUnit == b[i].pricePerUnit
  }

  /** Whether a feed matches reads only its name and type. */
  lemma SameLabelsSameMatches(f: Feed, g: Feed, r: FeedRequest)
    requires f.name == g.name && f.feedType == g.feedType
    ensures Matches(f, r) == Matches(g, r)
  {
  }

  /** The lookup reads only names and types, so stock updates never change it. */
  lemma {:induction false} SameCatalogSameMatch(a: seq<Feed>, b: seq<Feed>, r: FeedRequest)
    requires SameCatalog(a, b)
    ensures FindMatchingFeed(a, r) == FindMatchingFeed(b, r)
  {
    if a != [] {
      SameLabelsSameMatches(a[0], b[0], r);
      assert SameCatalog(a[1..], b[1..]);
      SameCatalogSameMatch(a[1..], b[1..], r);
    }
  }

  /** The fallback price table of `calculateFeedCost`, keyed both by key and by name. */
  const DefaultPrices: map<string, int> := map[
    "dairy_meal" := 45, "Dairy Meal" := 45,
    "pollard_wheat_pollard" := 35, "Pollard (Wheat Pollard)" := 35,
    "maize_germ" := 40, "Maize Germ" := 40,
    "maize_bran" := 30, "Maize Bran" := 30,
    "wheat_bran" := 32, "Wheat Bran" := 32,
    "cottonseed_cake" := 55, "Cottonseed Cake" := 55,
    "sunflower_cake" := 50, "Sunflower Cake" := 50,
    "fish_meal" := 80, "Fish Meal" := 80,
    "soybean_meal" := 65, "Soybean Meal" := 65,
    "molasses" := 25, "Molasses" := 25,
    "mineral_supplement" := 70, "Mineral Supplement" := 70,
    "salt" := 15, "Salt" := 15,
    "lucerne_meal" := 45, "Lucerne Meal" := 45,
    "urea-molasses_block" := 30, "Urea-Molasses Block" := 30,
    "yeast_probiotic_additives" := 90, "Yeast/Probiotic Additives" := 90,
    "protein_concentrate" := 75, "Protein Concentrate" := 75
  ]

  /** The price used when no table entry applies. */
  const LastResortPrice := 50

  /** Every entry of the table is a positive price, so `||` on a found entry keeps it. */
  lemma DefaultPricesPositive(k: string)
    requires k in DefaultPrices
    ensures DefaultPrices[k] > 0
  {
  }

  /** The request's type key has an entry in the table. */
  predicate KeyPriced(r: FeedRequest) {
    r.feedType.Some? && r.feedType.value in DefaultPrices
  }

  /** `defaultPrices[key] || defaultPrices[name] || 50`: the key is tried first, then the
      name, then the last-resort price. */
  function FallbackPrice(r: FeedRequest): (p: int)
    ensures p > 0
    ensures r.feedType.Some? && r.feedType.value in DefaultPrices ==> p == DefaultPrices[r.feedType.value]
    ensures !KeyPriced(r) && r.feedTypeName.Some? && r.feedTypeName.value in DefaultPrices ==>
              p == DefaultPrices[r.feedTypeName.value]
    ensures !KeyPriced(r) && (r.feedTypeName.None? || r.feedTypeName.value !in DefaultPrices) ==>
              p == LastResortPrice
  {
    if r.feedType.Some? && r.feedType.value in DefaultPrices then
      DefaultPricesPositive(r.feedType.value);
      DefaultPrices[r.feedType.value]
    else if r.feedTypeName.Some? && r.feedTypeName.value in DefaultPrices then
      DefaultPricesPositive(r.feedTypeName.value);
      DefaultPrices[r.feedTypeName.value]
    else LastResortPrice
  }

  /** `feed.pricePerUnit`, 0 when missing. */
  function UnitPrice(f: Feed): int {
    OrZero(f.pricePerUnit)
  }

  /** The price per unit `calculateFeedCost` charges: that of the matched feed when it
      has a non-zero price, else the fallback price. */
  function ResolvedPrice(feeds: seq<Feed>, r: FeedRequest): (p: int)
    ensures PricesNonNegative(feeds) ==> p > 0
  {
    match FindMatchingFeed(feeds, r)
    case Some(i) => if UnitPrice(feeds[i]) != 0 then UnitPrice(feeds[i]) else FallbackPrice(r)
    case None => FallbackPrice(r)
  }

  predicate PricesNonNegative(feeds: seq<Feed>) {
    forall i :: 0 <= i < |feeds| ==> UnitPrice(feeds[i]) >= 0
  }

  /** `calculateFeedCost`: requested quantity times the resolved price. */
  function FeedCost(feeds: seq<Feed>, r: FeedRequest): (cost: int)
    ensures RequestedQuantity(r) >= 0 && PricesNonNegative(feeds) ==> cost >= 0
    ensures RequestedQuantity(r) == 0 ==> cost == 0
  {
    ProductSign(RequestedQuantity(r), ResolvedPrice(feeds, r));
    RequestedQuantity(r) * ResolvedPrice(feeds, r)
  }

  /** Position i holds the first feed, in list order, that matches the request. */
  predicate FirstMatch(feeds: seq<Feed>, r: FeedRequest, i: int) {
    0 <= i < |feeds| && Matches(feeds[i], r) && forall j :: 0 <= j < i ==> !Matches(feeds[j], r)
  }

  /** A matched feed with a price prices the request. */
  lemma FeedCostUsesMatchedPrice(feeds: seq<Feed>, r: FeedRequest, i: nat)
    requires FirstMatch(feeds, r, i) && UnitPrice(feeds[i]) != 0
    ensures FeedCost(feeds, r) == RequestedQuantity(r) * UnitPrice(feeds[i])
  {
    var found := FindMatchingFeed(feeds, r);
    assert found.Some?;
    assert found.value == i;
  }

  /** With no matching feed, or a first match without a price, the fallback table
      prices the request. */
  lemma FeedCostFallsBack(feeds: seq<Feed>, r: FeedRequest)
    requires forall i :: 0 <= i < |feeds| && FirstMatch(feeds, r, i) ==> UnitPrice(feeds[i]) == 0
    ensures FeedCost(feeds, r) == RequestedQuantity(r) * FallbackPrice(r)
  {
  }

  /** Stock updates leave every request's cost as it was. */
  lemma SameCatalogSameCost(a: seq<Feed>, b: seq<Feed>, r: FeedRequest)
    requires SameCatalog(a, b)
    ensures FeedCost(a, r) == FeedCost(b, r)
  {
    SameCatalogSameMatch(a, b, r);
  }

  /** The three stock levels shown for a feed. */
  datatype StockLevel = OutOfStock | LowStock | InStock

  /** What `getStockStatus` returns, without the CSS class. */
  datatype StockStatus = StockStatus(level: StockLevel, available: int, reserved: int)

  /** `feed.minStockLevel || 0` */
  function MinStock(f: Feed): int {
    OrZero(f.minStockLevel)
  }

  /** `getStockStatus` */
  function GetStockStatus(f: Feed): (s: StockStatus)
    ensures s.available == OnHand(f) - ReservedOf(f) && s.reserved == ReservedOf(f)
    ensures s.level == OutOfStock <==> s.available <= 0
    ensures s.level == LowStock <==> 0 < s.available <= MinStock(f)
    ensures s.level == InStock <==> 0 < s.available && MinStock(f) < s.available
  {
    var available := OnHand(f) - ReservedOf(f);
    if available <= 0 then StockStatus(OutOfStock, available, ReservedOf(f))
    else if available <= MinStock(f) then StockStatus(LowStock, available, ReservedOf(f))
    else StockStatus(InStock, available, ReservedOf(f))
  }

  function LevelRank(l: StockLevel): nat {
    match l
    case OutOfStock => 0
    case LowStock => 1
    case InStock => 2
  }

  /** More available stock never shows a worse level, for the same minimum. */
  lemma StockLevelMonotone(f: Feed, g: Feed)
    requires MinStock(f) == MinStock(g) && Available(f) <= Available(g)
    ensures LevelRank(GetStockStatus(f).level) <= LevelRank(GetStockStatus(g).level)
  {
  }

  /** The sum of the costs of the requests whose status is in `wanted`, each costed
      against `feeds` as `calculateFeedCost` does. */
  function CostTotal(feeds: seq<Feed>, requests: seq<FeedRequest>, wanted: set<RequestStatus>): (total: int)
    ensures PricesNonNegative(feeds) && (forall k :: 0 <= k < |requests| ==> RequestedQuantity(requests[k]) >= 0)
            ==> total >= 0
  {
    if requests == [] then 0
    else
      (if requests[0].status in wanted then FeedCost(feeds, requests[0]) else 0) +
      CostTotal(feeds, requests[1..], wanted)
  }

  /** `calculateTotalPendingDeductions`: requests still pending or approved. */
  function TotalPendingDeductions(feeds: seq<Feed>, requests: seq<FeedRequest>): int {
    CostTotal(feeds, requests, {Pending, Approved})
  }

  /** `calculateTotalDeliveredDeductions`: delivered requests. */
  function TotalDeliveredDeductions(feeds: seq<Feed>, requests: seq<FeedRequest>): int {
    CostTotal(feeds, requests, {Delivered})
  }

  /** Replacing one request changes a total by exactly the difference of that one
      request's contributions. */
  lemma {:induction false} CostTotalUpdate(feeds: seq<Feed>, requests: seq<FeedRequest>, k: nat,
                                           r: FeedRequest, wanted: set<RequestStatus>)
    requires k < |requests|
    ensures CostTotal(feeds, requests[k := r], wanted) ==
            CostTotal(feeds, requests, wanted)
            - (if requests[k].status in wanted then FeedCost(feeds, requests[k]) else 0)
            + (if r.status in wanted then FeedCost(feeds, r) else 0)
  {
    if k == 0 {
      assert requests[k := r][1..] == requests[1..];
    } else {
      assert requests[k := r][1..] == requests[1..][k - 1 := r];
      CostTotalUpdate(feeds, requests[1..], k - 1, r, wanted);
    }
  }

  /** Stock updates leave the totals as they were. */
  lemma {:induction false} CostTotalSameCatalog(a: seq<Feed>, b: seq<Feed>, requests: seq<FeedRequest>,
                                                wanted: set<RequestStatus>)
    requires SameCatalog(a, b)
    ensures CostTotal(a, requests, wanted) == CostTotal(b, requests, wanted)
  {
    if requests != [] {
      SameCatalogSameCost(a, b, requests[0]);
      CostTotalSameCatalog(a, b, requests[1..], wanted);
    }
  }
}
