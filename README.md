# Dairy feed and milk-payment workflow, modelled in Dafny

This project models the two admin pages of a dairy cooperative's web app:

- **Feeds** (`src/pages/Feeds.js`). Farmers request feed. Each request and each
  inventory feed is a Firestore document. The page matches a request to an inventory
  feed by type or name and prices it against the feed or a fallback price table. It then
  drives the request through pending → approved → delivered (or rejected, or back to
  pending). Each step moves the feed's stock counters: reserve on approval, commit on
  delivery, release on rejection or reset, restore when a delivery is reverted. It also
  posts or removes the farmer's feed deduction in the `payments` collection.
- **Payments** (`src/pages/Payments.js`). Milk deliveries are valued at 45 per liter.
  The page shows each farmer's pending milk value, active feed deductions and net
  payable. `processPayment` settles a farmer: it marks the pending milk paid, records a
  milk payment and stamps the deductions it charged. `autoDeductFeedCosts` applies
  outstanding deductions against pending milk value. `markAsPaid` pays one milk log.

The database is the class `Records.Database`, with one `seq` field per collection.
Every read-modify-write of the pages is a `method` on it. Each method's new state is
given by a pure function of the old state; that function carries the properties, proved
as `ensures` clauses and lemmas. Ids the database would assign to new documents are
parameters.

Files:

- `basics.dfy`: an Option type, JavaScript's `|| 0`, ASCII lower-casing and substring search.
- `records.dfy`: the documents and the database.
- `feed_catalog.dfy`: matching, pricing, stock status and cost totals.
- `feed_inventory.dfy`: the four stock operations and the feed edit form.
- `feed_requests.dfy`: the deduction ledger and `updateRequestStatus`.
- `request_lifecycle.dfy`: properties across several status updates.
- `scenarios.dfy`: worked examples on a one-feed inventory.
- `payment_views.dfy`: milk valuation, the page's filtered views, balances, totals and
  the transaction list.
- `settlement.dfy`: `processPayment`, `autoDeductFeedCosts` and `markAsPaid`.

Behaviour a reader might expect that the code does not have (the model follows the
code):
- The code has no `InvalidTransition` error. `updateRequestStatus` writes any requested
  status, and its `switch` acts only on the target status and the previous one.
  A direct pending → rejected change is therefore accepted and touches no stock.
- The status and cost are written before the inventory step. A refused step (for
  example, too little stock) leaves the new status recorded.
- A request with no matching feed is an error (`NoMatchingFeed`) for approval and
  delivery. Release and restore do nothing in that case.
- The settlement charges every deduction of the farmer in the page's view, including
  processed ones (see Findings).
- Feed matching does not rank its three rules: the feed's type equals the request's
  type name, the feed's type contains the request's type key, or the feed's name
  contains the type name, all compared lower-cased. The code returns the first feed in
  list order that satisfies any of the three, even when a later feed satisfies an
  earlier rule.

## Model

| member | source | states |
|---|---|---|
| FeedCatalog.FindMatchingFeed | src/pages/Feeds.js:163-179 | The result is the first feed, in list order, that satisfies one of the three rules; None exactly when no feed matches. |
| FeedCatalog.MatchingIgnoresRequestCase | src/pages/Feeds.js:166-175 | Lower-casing the request's type name and type key does not change which feeds match. |
| FeedCatalog.EmptyTypeNameMatchesAnyNamedFeed | src/pages/Feeds.js:174 | An empty type name is contained in every name, so it matches any feed with a name. |
| FeedCatalog.MissingTypeNameMatchesUndefinedName | src/pages/Feeds.js:174 | With the type name missing, `includes(undefined)` looks for the text "undefined": every feed whose name lower-cases to "undefined" matches. |
| FeedCatalog.UnlabelledFeedMatchesNothing | src/pages/Feeds.js:164-178 | A feed with neither type nor name matches no request. |
| FeedCatalog.SameCatalogSameMatch | src/pages/Feeds.js:163-179 | Matching reads only ids, names, types and prices, so stock updates never change the matched feed. |
| FeedCatalog.DefaultPricesPositive | src/pages/Feeds.js:190-207 | Every entry of the fallback table is positive, so `||` never skips a found entry. |
| FeedCatalog.FallbackPrice | src/pages/Feeds.js:209 | The fallback tries the type key, then the type name, then 50; the price is always positive. |
| FeedCatalog.FeedCost | src/pages/Feeds.js:182-211 | The cost is non-negative for non-negative quantities and prices, and 0 for a zero or missing quantity. |
| FeedCatalog.FeedCostUsesMatchedPrice | src/pages/Feeds.js:183-187 | When the first matching feed has a non-zero price, the cost is quantity times that price. |
| FeedCatalog.FeedCostFallsBack | src/pages/Feeds.js:189-210 | With no match, or a first match without a price, the cost is quantity times the fallback price. |
| FeedCatalog.SameCatalogSameCost | src/pages/Feeds.js:182-211 | Stock updates never change a request's cost. |
| FeedCatalog.GetStockStatus | src/pages/Feeds.js:601-625 | Available is quantity minus reserved. Out of stock iff available ≤ 0; low iff 0 < available ≤ minimum; in stock iff available > minimum. |
| FeedCatalog.StockLevelMonotone | src/pages/Feeds.js:601-625 | For the same minimum, more available stock never shows a worse level. |
| FeedCatalog.CostTotal | src/pages/Feeds.js:214-226 | A cost total over non-negative quantities and prices is non-negative. |
| FeedCatalog.CostTotalUpdate | src/pages/Feeds.js:214-226 | Replacing one request changes a total by exactly the difference of that request's contributions. |
| FeedCatalog.CostTotalSameCatalog | src/pages/Feeds.js:214-226 | Stock updates leave the pending and delivered totals unchanged. |
| FeedInventory.ReserveFeed | src/pages/Feeds.js:418-436 | It succeeds iff the quantity is at most what is available; the reservation then grows by exactly the quantity and the invariant is kept; otherwise InsufficientStock(available, requested). |
| FeedInventory.ReleaseFeed | src/pages/Feeds.js:458-468 | The reservation becomes max(0, reserved − q), stock on hand is untouched, and the invariant is kept. |
| FeedInventory.CommitFeed | src/pages/Feeds.js:331-357 | It succeeds iff the quantity is at most stock on hand; stock then drops by q and the reservation is clamped at 0; otherwise InsufficientStock(onHand, requested). |
| FeedInventory.RestoreFeed | src/pages/Feeds.js:381-397 | Stock on hand grows by q, the reservation field is left as it was, and the invariant is kept. |
| FeedInventory.ReserveCommitRestoreRoundTrip | src/pages/Feeds.js:323-446 | Reserve, commit and restore of the same quantity give back the original stock on hand and reservation. |
| FeedInventory.Reserve | src/pages/Feeds.js:410-446 | Without a matching feed: NoMatchingFeed. Otherwise the first match is reserved, or the refusal leaves the inventory as it was. |
| FeedInventory.Release | src/pages/Feeds.js:449-478 | Releases the first matching feed; without a match the inventory is unchanged. |
| FeedInventory.Commit | src/pages/Feeds.js:323-369 | Without a matching feed: NoMatchingFeed. Otherwise stock is taken out of the first match, or the refusal leaves the inventory as it was. |
| FeedInventory.Restore | src/pages/Feeds.js:372-407 | Restores the first matching feed; without a match the inventory is unchanged. |
| FeedInventory.ReservePreservesStock | src/pages/Feeds.js:410-446 | Reserving a non-negative quantity keeps 0 ≤ reserved ≤ on hand for every feed. |
| FeedInventory.ReleasePreservesStock | src/pages/Feeds.js:449-478 | Releasing keeps 0 ≤ reserved ≤ on hand for every feed. |
| FeedInventory.CommitPreservesStock | src/pages/Feeds.js:323-369 | Committing keeps 0 ≤ reserved ≤ on hand for every feed. |
| FeedInventory.RestorePreservesStock | src/pages/Feeds.js:372-407 | Restoring a non-negative quantity keeps 0 ≤ reserved ≤ on hand for every feed. |
| FeedInventory.ReleaseTwice | src/pages/Feeds.js:461 | Releasing the same quantity twice leaves max(0, reserved − 2q): clamped at 0, never below. |
| FeedInventory.ReserveAllAvailableIsOutOfStock | src/pages/Feeds.js:410-446 | Reserving all available stock leaves the feed shown as out of stock. |
| FeedInventory.ReserveFeedInInventory | src/pages/Feeds.js:410-446 | The new inventory and outcome are those of Reserve on the old inventory. |
| FeedInventory.ReleaseReservedFeed | src/pages/Feeds.js:449-478 | The new inventory is Release of the old. |
| FeedInventory.UpdateInventoryOnDelivery | src/pages/Feeds.js:323-369 | The new inventory and outcome are those of Commit on the old inventory. |
| FeedInventory.RestoreInventoryOnRevert | src/pages/Feeds.js:372-407 | The new inventory is Restore of the old. |
| FeedInventory.NewFeedRecord | src/pages/Feeds.js:273-281 | A new feed has nothing reserved and all of its stock available. |
| FeedInventory.EditedFeed | src/pages/Feeds.js:283-292 | As written: the edited record's reservation is 0, but its available quantity is computed against the old reservation. |
| FeedInventory.EditLosesReservation | src/pages/Feeds.js:278-289 | Editing a feed that holds a reservation drops it, and the stored available quantity then disagrees with quantity minus reserved. |
| FeedInventory.EditedFeedKeepingReservation | src/pages/Feeds.js:283-289 | Corrected edit: the reservation is kept, available is quantity minus reserved, and the invariant holds when the new quantity covers the reservation. |
| FeedInventory.FindFeed | src/pages/Feeds.js:285 | The first position holding the id, or None iff no feed has it. |
| FeedInventory.EditFeed | src/pages/Feeds.js:264-292 | An incomplete form is refused with nothing written; otherwise the selected feed is overwritten with EditedFeed. |
| FeedRequests.HasDeductionIffCounted | src/pages/Feeds.js:483-491 | The deduction query is non-empty iff at least one deduction for the request exists. |
| FeedRequests.DeductionCountAppend | src/pages/Feeds.js:481-530 | Deductions for a request count additively over appended ledgers. |
| FeedRequests.DeductionRecord | src/pages/Feeds.js:492-502 | The posted deduction belongs to the request and its farmer, is completed, and has amount −|cost| ≤ 0. |
| FeedRequests.PostDeduction | src/pages/Feeds.js:481-510 | The ledger only grows, by at most the one new record. The request's deduction count becomes 1 if it was 0 and is otherwise unchanged. |
| FeedRequests.PostDeductionIdempotent | src/pages/Feeds.js:491 | Posting twice for the same request adds one deduction. |
| FeedRequests.RemoveDeductions | src/pages/Feeds.js:513-530 | No deduction for the request remains, the ledger shrinks by their count, and exactly the other payments remain; RemoveDeductionsAppend and RemoveNothing give their order. |
| FeedRequests.RemoveDeductionsAppend | src/pages/Feeds.js:513-530 | Removal distributes over appended ledgers. |
| FeedRequests.RemoveNothing | src/pages/Feeds.js:513-530 | Removing from a ledger without deductions for the request changes nothing. |
| FeedRequests.PostThenRemove | src/pages/Feeds.js:481-530 | Removing a request's deductions after posting one for it gives the same ledger as removing them without the post. |
| FeedRequests.RemoveKeepsOtherCounts | src/pages/Feeds.js:513-530 | Removal never raises any request's deduction count. |
| FeedRequests.PostKeepsAtMostOne | src/pages/Feeds.js:481-510 | Posting keeps "at most one deduction per request". |
| FeedRequests.RemoveKeepsAtMostOne | src/pages/Feeds.js:513-530 | Removing keeps "at most one deduction per request". |
| FeedRequests.CreateAutomaticDeduction | src/pages/Feeds.js:481-510 | The new ledger is PostDeduction of the old. |
| FeedRequests.RemoveDeduction | src/pages/Feeds.js:513-530 | The new ledger is RemoveDeductions of the old. |
| FeedRequests.KeepOtherPayments | src/pages/Feeds.js:513-530 | The loop over the ledger keeps exactly RemoveDeductions of it: every payment but the request's deductions, in order. |
| FeedRequests.FindRequest | src/pages/Feeds.js:536-540 | The first position holding the id, or None iff no request has it. |
| FeedRequests.FindRequestAfterUpdate | src/pages/Feeds.js:535-552 | Rewriting the found request under its own id leaves it found at the same position. |
| FeedRequests.SameDemandSameMatch | src/pages/Feeds.js:163-179 | Two snapshots of a request with the same type name and key match the same feed. |
| FeedRequests.Dispatch | src/pages/Feeds.js:555-589 | The `switch` leaves requests unchanged and the catalog the same, and a failed step changes neither inventory nor ledger. |
| FeedRequests.UpdateStatus | src/pages/Feeds.js:533-598 | Unknown id: RequestNotFound with nothing changed. Otherwise the request's status and cost are written whatever follows; a failure leaves inventory and ledger unchanged. |
| FeedRequests.UpdateRequestStatus | src/pages/Feeds.js:533-598 | The new feeds, requests and payments and the outcome are those of UpdateStatus on the old state. |
| RequestLifecycle.SameDemandSameCost | src/pages/Feeds.js:182-211 | Two snapshots of a request with the same demand cost the same. |
| RequestLifecycle.SameDemandSameSteps | src/pages/Feeds.js:323-478 | Two snapshots of a request with the same demand get the same stock steps. |
| RequestLifecycle.ApproveStep | src/pages/Feeds.js:556-560 | An accepted approval reserves the matched feed and writes status and cost; the ledger is untouched. |
| RequestLifecycle.DeliverStep | src/pages/Feeds.js:562-567 | An accepted delivery commits the matched feed and posts the deduction. |
| RequestLifecycle.ResetDeliveredStep | src/pages/Feeds.js:575-580 | Resetting a delivered request restores the matched feed and removes its deductions. |
| RequestLifecycle.ApproveThenDeliver | src/pages/Feeds.js:533-598 | From a state that is neither approved nor delivered, approving then delivering with enough stock succeeds twice: the matched feed is reserved then committed, the request is recorded delivered with its cost, and the deduction is posted. |
| RequestLifecycle.DeliverAfterApproval | src/pages/Feeds.js:562-567 | Right after an approval, delivery commits the feed the approval reserved and posts the deduction at the cost the approval wrote. |
| RequestLifecycle.ResetAfterDelivery | src/pages/Feeds.js:575-580 | Right after such a delivery, resetting to pending puts the stock back and removes the posted deduction, leaving the original ledger. |
| RequestLifecycle.ApproveDeliverResetRoundTrip | src/pages/Feeds.js:533-598 | Pending → approved → delivered → pending restores stock on hand and reservation and gives back the original ledger; only the cached cost stays written. |
| RequestLifecycle.RefusedDeliveryStaysRecorded | src/pages/Feeds.js:547-567 | A delivery refused for lack of stock still leaves the request recorded as delivered. |
| RequestLifecycle.DeliveryMovesCost | src/pages/Feeds.js:214-226 | Delivering an approved request moves its cost from the pending total to the delivered total. |
| RequestLifecycle.DispatchPreservesInvariant | src/pages/Feeds.js:555-589 | Every branch of the `switch` keeps the stock bounds and "at most one deduction per request". |
| RequestLifecycle.UpdateStatusPreservesInvariant | src/pages/Feeds.js:533-598 | Every status update keeps the stock bounds and "at most one deduction per request". |
| RequestLifecycle.ReapprovalReservesNothing | src/pages/Feeds.js:557 | Approving an approved request changes neither inventory nor ledger. |
| RequestLifecycle.RedeliveryIsNoOp | src/pages/Feeds.js:563 | Delivering a delivered request changes neither inventory nor ledger. |
| Scenarios.HayRequestMatchesHay | src/pages/Feeds.js:166 | A request whose type name equals the feed's type matches that feed first. |
| Scenarios.ApproveThenOverbook | src/pages/Feeds.js:410-446 | With 100 on hand, approving 30 reserves 30 (70 available, in stock). A further 80 is refused with InsufficientStock(70, 80), and the inventory stays as it was. |
| Scenarios.ApproveHay | src/pages/Feeds.js:556-560 | Approving 30 of the 100 on hand reserves 30 and writes the cost 1350. |
| Scenarios.DeliverApprovedHay | src/pages/Feeds.js:562-567 | Delivering the approved 30 leaves 70 on hand, none reserved, and one deduction for the request. |
| Scenarios.ApproveThenDeliverHay | src/pages/Feeds.js:533-598 | Approving then delivering 30 at 45 leaves 70 on hand, 0 reserved and one deduction of −1350. |
| PaymentViews.MilkValue | src/pages/Payments.js:66-71 | A log without a quantity is worth 0; any value is a multiple of 45, and non-negative for non-negative quantities. |
| PaymentViews.MilkTotal | src/pages/Payments.js:134-137 | A total over non-negative quantities is non-negative. |
| PaymentViews.MilkTotalIsLitersTimesPrice | src/pages/Payments.js:30 | The milk value of a set of logs is 45 times their liters. |
| PaymentViews.MilkTotalAppend | src/pages/Payments.js:134-137 | Milk totals add over appended lists. |
| PaymentViews.LogsWhere | src/pages/Payments.js:319-336 | A log is kept iff it is in the list and matches the farmer and status asked for. |
| PaymentViews.SelectedTotalUnfold | src/pages/Payments.js:319-336 | The selected total of a non-empty list is the first log's contribution plus that of the rest. |
| PaymentViews.SelectedTotalUpdate | src/pages/Payments.js:319-336 | Replacing one log changes a selected total by exactly the difference of the two contributions. |
| PaymentViews.LogsWhereNarrowing | src/pages/Payments.js:45-71 | Filtering the page's narrower-or-equal view again gives the same logs as filtering the whole collection. |
| PaymentViews.DeductionValue | src/pages/Payments.js:141-142 | A deduction's value is |amount|, 0 iff its amount is 0 or missing. |
| PaymentViews.DeductionTotal | src/pages/Payments.js:141-142 | Deduction totals are non-negative, and 0 iff every amount is 0. |
| PaymentViews.FeedDeductionView | src/pages/Payments.js:77-97 | The view holds exactly the feed deductions of the selected farmer (all farmers when none is selected). |
| PaymentViews.DeductionsWhere | src/pages/Payments.js:326-332 | A deduction is kept iff it is the farmer's and, when asked, not processed. |
| PaymentViews.ActiveTotalAtMostTotal | src/pages/Payments.js:140-142 | The unprocessed deductions never total more than all deductions. |
| PaymentViews.DeductionViewNarrowing | src/pages/Payments.js:77-97 | Selecting a farmer's deductions from the page's view equals selecting them from the whole ledger. |
| PaymentViews.CalculateFarmerBalance | src/pages/Payments.js:319-344 | Net payable is pending milk minus active deductions. The pending and deduction flags hold iff those totals are positive. Deductions are non-negative, and so are milk totals for non-negative quantities. |
| PaymentViews.BalanceIgnoresFarmerFilter | src/pages/Payments.js:319-344 | A farmer's card shows the same figures whether or not the page is filtered to that farmer. |
| PaymentViews.PendingFilteredOut | src/pages/Payments.js:51-53 | Under a status filter other than pending, a card shows no pending milk. |
| PaymentViews.CalculateTotals | src/pages/Payments.js:347-368 | Milk value is paid plus pending, net is pending minus deductions, and deductions are non-negative. |
| PaymentViews.MilkValueCoversPendingAndPaid | src/pages/Payments.js:347-368 | When every log is pending or paid, paid plus pending is the whole milk value. |
| PaymentViews.MilkEntries | src/pages/Payments.js:378-386 | One milk entry per log, in order. |
| PaymentViews.FeedEntries | src/pages/Payments.js:378-386 | One feed entry per deduction, in order. |
| PaymentViews.KeepType | src/pages/Payments.js:381-385 | A transaction is kept iff its kind is the one selected (or all are). |
| PaymentViews.KeepTypeAppend | src/pages/Payments.js:381-385 | The type filter distributes over appended lists. |
| PaymentViews.KeepAll | src/pages/Payments.js:381-385 | The filter keeps a list whose entries all pass the type selector. |
| PaymentViews.KeepNone | src/pages/Payments.js:381-385 | The filter empties a list whose entries all fail the type selector. |
| PaymentViews.FilteredTransactionsContents | src/pages/Payments.js:378-386 | "milk" lists every milk log, "feed" every active deduction, and "all" the milk entries followed by the deduction entries. |
| PaymentViews.FeedEntryIn | src/pages/Payments.js:378-386 | A deduction's entry is among the feed entries iff the deduction is in the list. |
| PaymentViews.NoFeedEntryAmongLogs | src/pages/Payments.js:378-386 | Milk entries never contain a deduction's entry. |
| PaymentViews.FeedEntryListedIffActive | src/pages/Payments.js:378-386 | Unless only milk is shown, a deduction is listed iff it is in the view and not processed. |
| Settlement.IdsOf | src/pages/Payments.js:181-189 | The ids are exactly those of the listed payments. |
| Settlement.MarkProcessed | src/pages/Payments.js:181-190 | Payments with a listed id become processed, stamped with the settling payment; all others are unchanged. |
| Settlement.MarkProcessedInPlace | src/pages/Payments.js:181-190 | The new ledger is MarkProcessed of the old. |
| Settlement.PayLogs | src/pages/Payments.js:157-164 | The farmer's pending logs become paid with paidAmount the net; every other log is unchanged. |
| Settlement.MilkPaymentRecord | src/pages/Payments.js:166-179 | The recorded payment is a completed milk payment whose amount is its net, pending milk minus deductions. |
| Settlement.Settle | src/pages/Payments.js:109-209 | Refused with nothing written iff the farmer is unknown, there is no pending milk, or the net is ≤ 0 (each refusal stated as an iff). On success: pending logs paid, the record appended, and the charged deductions stamped. |
| Settlement.PayPendingLogs | src/pages/Payments.js:156-164 | The new milk logs are PayLogs of the old. |
| Settlement.ProcessPayment | src/pages/Payments.js:109-209 | The new milk logs and payments and the outcome are those of Settle on the old state. |
| Settlement.PayLogsLeavesNothingPending | src/pages/Payments.js:156-164 | After paying, the farmer has no pending log left. |
| Settlement.SettlementClearsPendingMilk | src/pages/Payments.js:109-209 | After a successful settlement, the farmer's pending milk is empty. |
| Settlement.PayLogsMovesPendingToPaid | src/pages/Payments.js:156-164 | Paying moves exactly the pending milk value into the paid milk value. |
| Settlement.SettlementStampsChargedDeductions | src/pages/Payments.js:181-190 | Every charged deduction ends processed and linked to the new payment. |
| Settlement.SettlementNetAtMostDisplayed | src/pages/Payments.js:140-146 | The amount settled never exceeds the net payable on the farmer's card. |
| Settlement.FirstExampleSettlement | src/pages/Payments.js:109-209 | Settling 10 liters (450) against a 100 deduction pays 350, marks the log paid, stamps the deduction and records the payment. |
| Settlement.SecondExampleSettlement | src/pages/Payments.js:140-146 | As written: on the resulting ledger with 10 more liters, the next settlement pays 350 while the card shows 450. |
| Settlement.DeductionChargedTwice | src/pages/Payments.js:140-142 | As written: after a settlement, 10 more liters are settled at 350 while the card shows 450, because the processed deduction is charged again. |
| Settlement.OutstandingNetIsDisplayed | src/pages/Payments.js:326-336 | Corrected net: charging only unprocessed deductions pays exactly the card's net payable. |
| Settlement.OutstandingChargedOnce | src/pages/Payments.js:181-190 | Corrected: once the outstanding deductions are stamped, the farmer has no outstanding deduction left, so none is charged twice. |
| Settlement.ApplicationFor | src/pages/Payments.js:220-263 | An application is recorded iff the farmer has both active deductions and pending milk and the smaller of the two totals is positive. Its amount is that smaller total, and the remaining pending value is the difference. |
| Settlement.AppliedSum | src/pages/Payments.js:276 | The sum of well-formed applications is non-negative, and 0 iff there are none. |
| Settlement.AutoDeductTotals | src/pages/Payments.js:212-296 | One application per farmer processed, all well-formed. The total deducted is their sum, 0 iff no farmer was processed. |
| Settlement.AutoDeductMarks | src/pages/Payments.js:250-279 | Over the whole loop, a payment ends processed exactly when it is an active snapshot deduction of a farmer who got an application; every other payment is unchanged. |
| Settlement.AutoDeductOrder | src/pages/Payments.js:212-296 | The applications belong, in order, to exactly the farmers who got one, and the farmer count is their number. |
| Settlement.ApplyDeductionsOfFarmer | src/pages/Payments.js:220-277 | One farmer's step: the application, the stamped deductions and the returned amount are those of ApplicationFor. |
| Settlement.AutoDeductFeedCosts | src/pages/Payments.js:212-296 | The new payments, applications, totals and farmer count are those of AutoDeduct; milk logs are not touched. |
| Settlement.PartialCoverMarksAllProcessed | src/pages/Payments.js:248-272 | When deductions exceed pending milk, all of them are still marked processed although only part was applied. |
| Settlement.MarkPaid | src/pages/Payments.js:298-316 | A log shown in the view with the id becomes paid; an id absent from the view changes nothing. |
| Settlement.MarkAsPaid | src/pages/Payments.js:298-316 | The new milk logs are MarkPaid of the old, over the page's view. |
| Settlement.MarkPaidMovesValue | src/pages/Payments.js:298-316 | Marking a pending log paid moves its value from the pending total to the paid total. |

## Left out

- Firestore I/O, queries and listeners. Each page view is taken to be current with the
  database. The deduction list `autoDeductFeedCosts` uses is taken at the start of the run.
- Every date. The year/month filter of the milk view is not modelled. Neither are the
  `createdAt`, `updatedAt`, `deductionDate`, `paidDate`, `processedDate` and
  `lastUpdated` stamps, the `lastDelivery` record (request, farmer, quantity, date)
  written on delivery, the `lastRestoration` record written on a revert, or the
  description texts. Nothing in the modelled operations reads any of them.
- The feed list is assumed to be the page's feed view, which the code queries with
  `orderBy('name')` (src/pages/Feeds.js:93). The model takes that list as given (sorted
  by name, holding only feeds that have a name) and never sorts it. This matters:
  `findMatchingFeed` picks the first match in the list, so the name order decides which
  feed is priced, reserved, committed, released and restored. Two consequences follow.
  Nothing in the model stops a feed without a name from being in the list and matching
  by its type, though the query would leave such a feed out. And an edit that renames a
  feed keeps its position, where the listener would show the list re-sorted.
- The milk, payment and request views are queried in date order. The model keeps them
  in the order given, which affects only the order of the transaction list.
- Alerts, messages, dialogs and the `isProcessing` flag: UI only.
- Floating point and `parseFloat`: quantities and prices are integers, and a form
  number is already parsed.
- `toLowerCase` is modelled on ASCII letters only.
- Prototype keys of the JavaScript price object (such as "constructor") are not
  modelled: the table is a map with exactly the 32 entries.
- The add branch of `handleSubmit` is modelled only as far as the new record's fields.
  `deleteFeed` is outside the modelled operations.
- Concurrency and a failed batch commit are not modelled. A settlement, an auto-deduction
  run and a status update each apply all of their writes.
- Ids the database assigns to new payment and deduction documents are parameters.
  Updates by document id are modelled as updates of the positions holding that id.
- Payment-type filter values other than "milk" and "feed" behave as "all" (`AllTypes`).
- Status strings other than the four known ones are `Unrecognized`; the `switch` does
  nothing for them.
- Settlement.ProcessPayment: models the code as written, charging processed deductions
  as well. The corrected net is Settlement.OutstandingNet.
- FeedInventory.EditFeed: models the code as written, resetting the reservation; the
  corrected record is FeedInventory.EditedFeedKeepingReservation. When the selected id
  is not in the collection, the model refuses with UnknownFeed, standing for the
  failing `updateDoc`.

## Findings

| source | as written | input that shows it | evidently intended | confidence | as-written member | corrected member |
|---|---|---|---|---|---|---|
| src/pages/Feeds.js:278-289 | Editing a feed writes `reservedQuantity: 0` but computes `availableQuantity` as the new quantity minus the old reservation | A feed with quantity 100 and 30 reserved, edited to quantity 100: the stored reservation is 0, the stored available quantity is 70, and the next release can no longer return the 30 | The edit keeps the existing reservation ("preserve the existing available quantity logic"), so available = quantity − reserved | high, not executed | FeedInventory.EditLosesReservation | FeedInventory.EditedFeedKeepingReservation |
| src/pages/Payments.js:140-142 | `processPayment` charges every feed deduction of the farmer, including those already marked processed by an earlier settlement | A deduction of 100 settled against 10 liters (paying 350); 10 more liters later settle at 350 while the farmer's card shows 450 net payable | Only unprocessed deductions are charged, as the card's balance (lines 326-332) counts them | medium, not executed | Settlement.DeductionChargedTwice | Settlement.OutstandingNetIsDisplayed |
