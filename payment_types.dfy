/** The records the payment services exchange: the request a client posts, the payment row
    a service stores, and the JSON envelope it answers with. Timestamps are left out. */
module PaymentTypes {
  import opened Wrappers
  import opened Text

  /** The request body of the card-only services (no currency field). */
  datatype PaymentRequest = PaymentRequest(
    orderId: string,
    amount: real,
    cardNumber: GoString,
    cardHolder: string,
    expiryDate: GoString,
    cvv: GoString)

  datatype Payment = Payment(
    id: string,
    orderId: string,
    amount: real,
    currency: string,
    status: string,
    cardLastFour: string,
    transactionId: string)

  /** `PaymentResponse{Success, Message, Payment}`; a failure carries no payment. */
  datatype PaymentResponse = PaymentResponse(success: bool, message: string, payment: Option<Payment>)

  /** What a handler writes: a status code and either the JSON envelope or plain text
      (`http.Error`). */
  datatype Reply = Json(status: int, body: PaymentResponse) | PlainText(status: int, text: string)

  /** `cardNumber[len(cardNumber)-4:]`: the last four bytes of the card number. */
  function LastFour(cardNumber: GoString): (r: GoString)
    requires |cardNumber| >= 4
    ensures |r| == 4 && cardNumber == cardNumber[..|cardNumber| - 4] + r
  {
    cardNumber[|cardNumber| - 4..]
  }

  /** The payment both card-only services record for an accepted request: the request's
      order and amount, currency "USD", status "completed" and the card's last four bytes. */
  function CompletedPayment(id: string, req: PaymentRequest, transactionId: string): (p: Payment)
    requires |req.cardNumber| >= 4
    ensures p.id == id && p.orderId == req.orderId && p.amount == req.amount
    ensures p.currency == "USD" && p.status == "completed" && p.transactionId == transactionId
    ensures req.cardNumber == req.cardNumber[..|req.cardNumber| - 4] + p.cardLastFour
  {
    Payment(id, req.orderId, req.amount, "USD", "completed", LastFour(req.cardNumber), transactionId)
  }
}
