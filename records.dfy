/** The records of the Firestore collections the feed and payment pages read and write,
    and the in-memory store that stands in for the database. */
module Records {
  import opened Basics

  /** `status` of a document in `feed_requests`. Any other string, or a missing field,
      is Unrecognized: the workflow compares it with the four known names only. */
  datatype RequestStatus = Pending | Approved | Delivered | Rejected | Unrecognized

  /** A document of `feeds`. Optional numeric fields are read with `|| 0`. */
  datatype Feed = Feed(
    id: string,
    name: Option<string>,
    feedType: Option<string>,
    unit: string,
    quantity: Option<int>,
    reservedQuantity: Option<int>,
    availableQuantity: Option<int>,
    pricePerUnit: Option<int>,
    minStockLevel: Option<int>)

  /** A document of `feed_requests`, submitted by the farmer-facing app. The request
      names its feed by `feedTypeName` (a display name) and/or `feedType` (a key). */
  datatype FeedRequest = FeedRequest(
    id: string,
    farmerId: string,
    feedTypeName: Option<string>,
    feedType: Option<string>,
    quantity: Option<int>,
    status: RequestStatus,
    cost: Option<int>)

  /** `type` of a document in `payments`. */
  datatype PaymentKind = FeedDeduction | MilkPayment | OtherKind

  /** `status` of a document in `payments`: only 'processed' is ever tested for. */
  datatype PaymentStatus = Completed | Processed | OtherStatus

  /** A document of `payments`: a feed deduction (posted when a request is delivered) or
      a milk payment (recorded by a settlement). Fields a kind does not use are None. */
  datatype Payment = Payment(
    id: string,
    farmerId: string,
    kind: PaymentKind,
    amount: Option<int>,
    feedRequestId: Option<string>,
    status: PaymentStatus,
    appliedToPayment: Option<string>,
    pendingMilkAmount: Option<int>,
    feedDeductions: Option<int>,
    netAmount: Option<int>)

  /** `status` of a milk delivery in `milk_logs`. */
  datatype MilkStatus = MilkPending | MilkPaid | MilkOther

  /** A document of `milk_logs`: one delivery of `quantity` liters. */
  datatype MilkLog = MilkLog(
    id: string,
    farmerId: string,
    quantity: Option<int>,
    status: MilkStatus,
    paidAmount: Option<int>)

  /** A document of `users` whose role is 'farmer'. */
  datatype Farmer = Farmer(id: string, name: string)

  /** A document of `deduction_applications`, written when feed costs are applied to a
      farmer's pending milk value. */
  datatype DeductionApplication = DeductionApplication(
    farmerId: string,
    amount: int,
    originalPending: int,
    deductedAmount: int,
    remainingPending: int)

  /** The database: one sequence per collection, in the order the pages' queries list
      them. Every `addDoc`, `updateDoc` and `deleteDoc` of the pages is an update of
      one of these fields. */
  class Database {
    var feeds: seq<Feed>
    var feedRequests: seq<FeedRequest>
    var payments: seq<Payment>
    var milkLogs: seq<MilkLog>
    var deductionApplications: seq<DeductionApplication>
    var farmers: seq<Farmer>

    constructor (feeds: seq<Feed>, feedRequests: seq<FeedRequest>, payments: seq<Payment>,
                 milkLogs: seq<MilkLog>, farmers: seq<Farmer>)
      ensures this.feeds == feeds && this.feedRequests == feedRequests
      ensures this.payments == payments && this.milkLogs == milkLogs
      ensures this.deductionApplications == [] && this.farmers == farmers
    {
      this.feeds := feeds;
      this.feedRequests := feedRequests;
      this.payments := payments;
      this.milkLogs := milkLogs;
      this.deductionApplications := [];
      this.farmers := farmers;
    }
  }
}
