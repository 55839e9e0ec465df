/** The records of the payment service: the persisted Payment entity, the
    request and the response, with Java's nullable fields as Option. The
    amount, a BigDecimal that is only copied, is an int. */
module PaymentModel {
  import opened Wrappers
  import opened Environment

  datatype PaymentStatus = COMPLETED | FAILED | REFUNDED

  /** A persisted payment; id is the key the store assigned when it was saved. */
  datatype Payment = Payment(
    id: int,
    orderId: int,
    amount: int,
    paymentMethod: string,
    transactionId: Option<string>,
    paymentDate: Timestamp,
    status: PaymentStatus)

  datatype PaymentRequest = PaymentRequest(
    orderId: int,
    amount: int,
    paymentMethod: string,
    paymentDetails: string)

  datatype PaymentResponse = PaymentResponse(
    id: Option<int>,
    orderId: Option<int>,
    amount: Option<int>,
    paymentMethod: Option<string>,
    transactionId: Option<string>,
    paymentDate: Option<Timestamp>,
    status: Option<PaymentStatus>,
    message: string)

  /** The response with every field null except message. */
  function MessageOnly(message: string): PaymentResponse {
    PaymentResponse(None, None, None, None, None, None, None, message)
  }

  /** The payment a response describes, when it carries every field a
      persisted payment always has; the inverse of mapping a payment to a
      response. */
  function RecordOf(r: PaymentResponse): Option<Payment> {
    if r.id.Some? && r.orderId.Some? && r.amount.Some? && r.paymentMethod.Some?
       && r.paymentDate.Some? && r.status.Some?
    then Some(Payment(r.id.value, r.orderId.value, r.amount.value, r.paymentMethod.value,
                      r.transactionId, r.paymentDate.value, r.status.value))
    else None
  }

  /** Events sent to the "payment-events" topic. */
  datatype PaymentEvent = PaymentProcessed(id: int) | PaymentRefunded(id: int)
}
