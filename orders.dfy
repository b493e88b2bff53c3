/** The order record exchanged between the socket service and the server (Order.swift). */
module Orders {
  import opened Wrappers

  /** `enum OrderStatus: String`, with its two cases. */
  datatype OrderStatus = Pending | Completed

  /** The raw value Swift synthesises for each case: the case name. */
  function RawValue(status: OrderStatus): (raw: string)
    ensures raw == "pending" <==> status == Pending
    ensures raw == "completed" <==> status == Completed
  {
    match status
    case Pending => "pending"
    case Completed => "completed"
  }

  /** `OrderStatus(rawValue:)`: the failable initialiser that decoding goes through. */
  function StatusFromRawValue(raw: string): (status: Option<OrderStatus>)
    ensures status.Some? ==> RawValue(status.value) == raw
    ensures status.None? ==> forall s: OrderStatus :: RawValue(s) != raw
  {
    if raw == "pending" then Some(Pending)
    else if raw == "completed" then Some(Completed)
    else None
  }

  /** Decoding a raw value recovers the case it was encoded from. */
  lemma {:induction false} StatusRawValueRoundTrip(status: OrderStatus)
    ensures StatusFromRawValue(RawValue(status)) == Some(status)
  {
    match status
    case Pending =>
    case Completed =>
  }

  /** `struct Order`: four immutable fields. */
  datatype Order = Order(transactionId: Option<string>, senderId: string, item: string, status: OrderStatus)

  /**
   * `Order.init(transactionId:senderId:item:status:)`; as in Swift, the
   * transaction id defaults to nil and the status to pending.
   */
  function NewOrder(senderId: string, item: string,
                    transactionId: Option<string> := None, status: OrderStatus := Pending): (order: Order)
    ensures order.transactionId == transactionId && order.senderId == senderId
    ensures order.item == item && order.status == status
  {
    Order(transactionId, senderId, item, status)
  }

  /** The order invariant: a settling transfer is recorded exactly when the order is completed. */
  predicate WellFormed(order: Order) {
    order.transactionId.Some? <==> order.status == Completed
  }

  /** `struct OrderResult`: the completion notice pushed to the subscribers. */
  datatype OrderResult = OrderResult(senderid: string, status: string)

  /** The notice the server builds for a completed order of `senderId`. */
  function CompletionNotice(senderId: string): (notice: OrderResult)
    ensures notice.senderid == senderId
    ensures StatusFromRawValue(notice.status) == Some(Completed)
  {
    OrderResult(senderId, RawValue(Completed))
  }
}
