/** The entities of the marketplace: RFQs (requests for quotation), offers,
    negotiations and their messages, orders, users, and the gatekeeper's log.
    Identifiers are naturals; timestamps are milliseconds as integers; money
    and scores are reals. */
module Domain {
  import opened Wrappers

  type Id = nat

  datatype Role = Admin | Client | Supplier

  /** The authenticated caller, as the user id and role the token carries. */
  datatype Actor = Actor(userId: Id, role: Role)

  datatype RfqStatus =
    | Draft | Published | OffersReceived | Negotiating
    | FinalOfferSelected | SentToClient | Closed

  /** A decision the gatekeeper (or an administrator acting for it) records on an RFQ. */
  datatype Decision = AutoApproved | AutoRejected | FlaggedHighRisk

  /** The RFQ's gatekeeper column: `Unset` is a null column. */
  datatype GateStatus = Unset | Pending | Decided(decision: Decision)

  datatype RiskLevel = Normal | HighValue | HighRisk

  datatype OfferStatus =
    | Submitted | UnderReview | InNegotiation | FinalConfirmed
    | Accepted | Rejected | Withdrawn

  datatype NegotiationStatus = Active | Completed | Cancelled

  datatype OrderStatus =
    | Created | PaymentInitiated | PaymentConfirmed | DeliveryInProgress
    | Delivered | Received | Finalized | Archived

  /** The mock payment column: pending, initiated, confirmed. */
  datatype PaymentStatus = PayPending | PayInitiated | PayConfirmed

  /** The delivery column: pending, in_progress, delivered, received. */
  datatype DeliveryStatus = ShipPending | ShipInProgress | ShipDelivered | ShipReceived

  datatype Rfq = Rfq(
    clientId: Id,
    title: string,
    description: string,
    requirements: string,
    deadline: int,
    budget: Option<real>,
    status: RfqStatus,
    gatekeeperStatus: GateStatus,
    riskLevel: Option<RiskLevel>,
    aiConfidenceScore: Option<int>,
    suggestedSuppliers: seq<Id>,
    autoProcessedAt: Option<int>,
    createdAt: int,
    publishedAt: Option<int>)

  datatype Offer = Offer(
    rfqId: Id,
    supplierId: Id,
    price: real,
    deliveryTime: string,
    description: string,
    terms: string,
    status: OfferStatus,
    isLocked: bool,
    submittedAt: int)

  datatype Negotiation = Negotiation(
    offerId: Id,
    rfqId: Id,
    adminId: Id,
    supplierId: Id,
    rounds: int,
    status: NegotiationStatus,
    createdAt: int,
    completedAt: Option<int>)

  datatype Message = Message(
    negotiationId: Id,
    senderId: Id,
    senderRole: Role,
    roundNumber: int,
    text: string,
    proposedPrice: Option<real>,
    proposedDeliveryTime: Option<string>,
    createdAt: int)

  datatype Order = Order(
    rfqId: Id,
    offerId: Id,
    clientId: Id,
    supplierId: Id,
    finalPrice: real,
    finalTerms: string,
    status: OrderStatus,
    isLocked: bool,
    payment: PaymentStatus,
    delivery: DeliveryStatus,
    createdAt: int,
    finalizedAt: Option<int>,
    archivedAt: Option<int>)

  /** The company profile columns of a user that the gatekeeper reads; each may be null. */
  datatype Profile = Profile(
    companyAge: Option<real>,
    annualRevenue: Option<real>,
    reputationScore: Option<real>,
    financialScore: Option<real>,
    completedRFQs: Option<int>,
    rejectedRFQs: Option<int>,
    categoryExpertise: Option<string>)

  const EmptyProfile := Profile(None, None, None, None, None, None, None)

  datatype User = User(username: string, email: string, role: Role, createdBy: Option<Id>, profile: Profile)

  /** One entry of the gatekeeper's processing log. */
  datatype GateLog = GateLog(
    rfqId: Id,
    decision: Decision,
    aiScore: int,
    riskLevel: RiskLevel,
    clientReputation: Option<real>,
    rfqValue: Option<real>,
    processedAt: int)

  /** Why a request was refused with status 400. */
  datatype Why = InvalidInput | InvalidState | Duplicate | RoundLimit | Locked | Mismatch | DuplicateUsername | DuplicateEmail

  /** The HTTP outcome of a handler: 200/201, 404, 403, 400, or 500 when a
      referenced row is missing. */
  datatype Outcome = Ok | NotFound | Forbidden | BadRequest(why: Why) | Internal

  /** A nullable number is truthy (present and not zero). */
  predicate TruthyReal(x: Option<real>) {
    x.Some? && x.value != 0.0
  }

  predicate TruthyInt(x: Option<int>) {
    x.Some? && x.value != 0
  }

  /** A nullable string is truthy (present and not ""). */
  predicate TruthyText(x: Option<string>) {
    x.Some? && x.value != ""
  }

  /** `x || d` on a nullable number: null and zero fall back to `d`. */
  function OrReal(x: Option<real>, d: real): real {
    if TruthyReal(x) then x.value else d
  }

  function OrInt(x: Option<int>, d: int): int {
    if TruthyInt(x) then x.value else d
  }

  function OrText(x: Option<string>, d: string): string {
    if TruthyText(x) then x.value else d
  }
}
