/** `processPayment` of the card-only payment service (`src/backend/payment-service/main.go`):
    decode, check card, expiry and CVV in that order, and only then create the payment. The
    decoded body, the current year, the generated IDs and the outcome of the insert are
    inputs; the result is the reply together with the row the handler asked to insert. */
module BackendPaymentHandler {
  import opened Wrappers
  import opened Text
  import opened PaymentTypes
  import opened BackendPaymentDb

  const InvalidFormat := "Invalid request format"
  const InvalidCard := "Invalid card number"
  const InvalidExpiry := "Invalid or expired card"
  const InvalidCvv := "Invalid CVV"
  const Processed := "Payment processed successfully"

  /** The message of the first check the request fails, card before expiry before CVV. */
  function FirstFailure(req: PaymentRequest, currentYear: nat): (r: Option<string>)
    ensures r.None? <==>
      CardNumberValid(req.cardNumber) && ValidateExpiryDate(req.expiryDate, currentYear) && ValidateCVV(req.cvv)
    ensures !CardNumberValid(req.cardNumber) ==> r == Some(InvalidCard)
    ensures CardNumberValid(req.cardNumber) && !ValidateExpiryDate(req.expiryDate, currentYear) ==>
      r == Some(InvalidExpiry)
    ensures (CardNumberValid(req.cardNumber) && ValidateExpiryDate(req.expiryDate, currentYear) &&
             !ValidateCVV(req.cvv)) ==> r == Some(InvalidCvv)
  {
    if !CardNumberValid(req.cardNumber) then Some(InvalidCard)
    else if !ValidateExpiryDate(req.expiryDate, currentYear) then Some(InvalidExpiry)
    else if !ValidateCVV(req.cvv) then Some(InvalidCvv)
    else None
  }

  /** The reply, and the payment `CreatePayment` was asked to insert (if it was called). */
  datatype Handled = Handled(reply: Reply, inserted: Option<Payment>)

  function Rejected(message: string): Reply
  {
    Json(400, PaymentResponse(false, message, None))
  }

  function ProcessPayment(body: Option<PaymentRequest>, currentYear: nat, paymentId: string,
                          transactionId: string, insertError: Option<string>): (h: Handled)
    ensures body.None? ==> h == Handled(Rejected(InvalidFormat), None)
    ensures body.Some? && FirstFailure(body.value, currentYear).Some? ==>
      h == Handled(Rejected(FirstFailure(body.value, currentYear).value), None)
    ensures h.inserted.Some? <==> body.Some? && FirstFailure(body.value, currentYear).None?
    ensures h.inserted.Some? ==>
      |body.value.cardNumber| >= 4 && h.inserted == Some(CompletedPayment(paymentId, body.value, transactionId))
    ensures h.inserted.Some? && insertError.Some? ==> h.reply == PlainText(500, insertError.value)
    ensures h.reply.Json? && h.reply.body.success <==> h.inserted.Some? && insertError.None?
    ensures h.reply.Json? && h.reply.body.success ==>
      h.reply == Json(200, PaymentResponse(true, Processed, h.inserted))
  {
    if body.None? then Handled(Rejected(InvalidFormat), None)
    else
      var req := body.value;
      match FirstFailure(req, currentYear)
      case Some(message) => Handled(Rejected(message), None)
      case None =>
        CardLengthAfterCheck(req.cardNumber);
        var row := CompletedPayment(paymentId, req, transactionId);
        match CreatePayment(req, paymentId, transactionId, insertError)
        case Err(e) => Handled(PlainText(500, e), Some(row))
        case Ok(payment) => Handled(Json(200, PaymentResponse(true, Processed, Some(payment))), Some(row))
  }

  /** An accepted card number has 13 to 19 bytes, so its last four can be sliced off. */
  lemma CardLengthAfterCheck(cardNumber: GoString)
    requires CardNumberValid(cardNumber)
    ensures 13 <= |cardNumber| <= 19
  {
  }
}
