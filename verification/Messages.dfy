/** The negotiation messages, with the fields that correlate replies and the ones recovery keeps. */
module Messages {
  import opened Durability

  type Id = nat

  datatype Direction = Submarine | Reverse

  datatype Quote = Quote(quoteId: Id, total: u64, expiry: u64)

  datatype Request = Request(quoteId: Id, direction: Direction, paymentHash: string)

  /** `contract` stands for the remaining fields, which are only ever compared. */
  datatype Accept = Accept(
    quoteId: Id,
    swapId: Id,
    direction: Direction,
    timeout: u32,
    onchainAmount: u64,
    invoice: Option<string>,
    contract: string)

  datatype RejectCode = NotFound | Pending | Refused

  datatype Message =
    | Offer(requestId: Option<Id>)
    | OfferRequest(requestId: Option<Id>)
    | QuoteRequest(requestId: Option<Id>)
    | QuoteReply(requestId: Option<Id>)
    | SwapRequest(request: Request)
    | SwapAccept(accept: Accept)
    | StatusUpdate(swapId: Id)
    | StatusRequest(requestId: Option<Id>, ofSwap: Option<Id>, ofQuote: Option<Id>)
    | StatusSnapshot(requestId: Option<Id>, accept: Accept)
    | SwapListRequest(requestId: Option<Id>)
    | SwapList(requestId: Option<Id>)
    | Other
    | Reject(requestId: Option<Id>, rejectedQuote: Option<Id>, code: Option<RejectCode>)
}
