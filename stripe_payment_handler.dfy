/** `processPayment` of the Stripe-backed payment service (`src/payment-service/main.go`) as
    decision logic: the failure feature flag, the request decoding, the card, expiry and CVV
    checks, the expiry split into Stripe's month and year, then token creation, the charge
    and the database save. The flag evaluation, the decoded body and the three outside
    services are inputs; the result records the reply and the outside calls made. */
module StripePaymentHandler {
  import opened Wrappers
  import opened Text
  import opened StripePaymentDb
  import PaymentTypes

  const SimulatedFailure := "Simulated Payment Service Failure"
  const InvalidFormat := "Invalid request format"
  const InvalidCard := "Invalid card number"
  const InvalidExpiry := "Invalid or expired card"
  const InvalidCvv := "Invalid CVV"
  const Processed := "Payment processed successfully via Stripe"

  /** The card part of Stripe's token parameters. */
  datatype CardParams = CardParams(number: GoString, expMonth: GoString, expYear: GoString, cvc: GoString)

  /** Stripe's charge parameters; the amount is in cents. */
  datatype ChargeParams = ChargeParams(amount: int, currency: string, token: string)

  /** `int64(amount * 100)`: the amount in cents, truncated toward zero as Go's conversion
      from a float truncates. */
  function Cents(amount: real): (c: int)
    ensures amount >= 0.0 ==> 0 <= c && c as real <= amount * 100.0 < c as real + 1.0
    ensures amount <= 0.0 ==> c <= 0 && c as real - 1.0 < amount * 100.0 <= c as real
  {
    if amount >= 0.0 then (amount * 100.0).Floor else -((-amount * 100.0).Floor)
  }

  /** The calls to outside services, in the order they are made. */
  datatype ExternalCall =
    | CreateToken(card: CardParams)
    | CreateCharge(charge: ChargeParams)
    | SavePayment(row: PaymentTypes.Payment)

  datatype Handled = Handled(status: int, response: PaymentTypes.PaymentResponse, calls: seq<ExternalCall>)

  function Failure(status: int, message: string, calls: seq<ExternalCall>): Handled
  {
    Handled(status, PaymentTypes.PaymentResponse(false, message, None), calls)
  }

  /** The message of the first check the request fails, card before expiry before CVV. */
  function FirstFailure(req: StripePaymentRequest): (r: Option<string>)
    ensures r.None? <==> CardNumberValid(req.cardNumber) && ExpiryDateValid(req.expiryDate) && CvvValid(req.cvv)
    ensures !CardNumberValid(req.cardNumber) ==> r == Some(InvalidCard)
    ensures CardNumberValid(req.cardNumber) && !ExpiryDateValid(req.expiryDate) ==> r == Some(InvalidExpiry)
    ensures CardNumberValid(req.cardNumber) && ExpiryDateValid(req.expiryDate) && !CvvValid(req.cvv) ==> r == Some(InvalidCvv)
  {
    if !CardNumberValid(req.cardNumber) then Some(InvalidCard)
    else if !ExpiryDateValid(req.expiryDate) then Some(InvalidExpiry)
    else if !CvvValid(req.cvv) then Some(InvalidCvv)
    else None
  }

  /** Stripe's month and year, chosen by the length of the date. */
  function ExpirySplit(expiryDate: GoString): (GoString, GoString)
  {
    if |expiryDate| == 5 then (expiryDate[..2], "20" + expiryDate[3..])
    else if |expiryDate| == 7 then (expiryDate[..2], expiryDate[3..])
    else ("12", "2025")
  }

  function CardFor(req: StripePaymentRequest): CardParams
  {
    var (month, year) := ExpirySplit(req.expiryDate);
    CardParams(req.cardNumber, month, year, req.cvv)
  }

  /** The handler. `flag` is the flag evaluation (`None` when it errs), `body` the decoded
      request (`None` when decoding fails), `paymentId` the ID the database layer would
      generate; `tokens`, `charges` and `save` answer the three outside calls with an ID
      or an error text. */
  function ProcessPayment(flag: Option<bool>, body: Option<StripePaymentRequest>, paymentId: string,
                          tokens: CardParams -> Result<string, string>,
                          charges: ChargeParams -> Result<string, string>,
                          save: PaymentTypes.Payment -> Result<PaymentTypes.Payment, string>): (h: Handled)
    ensures flag == Some(true) ==> h == Failure(500, SimulatedFailure, [])
    ensures flag != Some(true) && body.None? ==> h == Failure(400, InvalidFormat, [])
    ensures flag != Some(true) && body.Some? && FirstFailure(body.value).Some? ==>
      h == Failure(400, FirstFailure(body.value).value, [])
    ensures |h.calls| <= 3
    ensures h.calls != [] ==> flag != Some(true) && body.Some? && FirstFailure(body.value).None?
    ensures h.response.success <==> h.status == 200
    ensures h.response.success ==> |h.calls| == 3 && h.response.message == Processed
    ensures !h.response.success ==> h.response.payment.None?
  {
    if flag == Some(true) then Failure(500, SimulatedFailure, [])
    else if body.None? then Failure(400, InvalidFormat, [])
    else
      var req := body.value;
      match FirstFailure(req)
      case Some(message) => Failure(400, message, [])
      case None =>
        AcceptedCardHasLastFour(req.cardNumber);
        var card := CardFor(req);
        var calls := [CreateToken(card)];
        match tokens(card)
        case Err(e) => Failure(500, "Stripe Token Error: " + e, calls)
        case Ok(tokenId) =>
          var charge := ChargeParams(Cents(req.amount), req.currency, tokenId);
          var calls := calls + [CreateCharge(charge)];
          match charges(charge)
          case Err(e) => Failure(500, "Stripe Charge Error: " + e, calls)
          case Ok(chargeId) =>
            var row := InsertedPayment(req, paymentId, chargeId);
            var calls := calls + [SavePayment(row)];
            match save(row)
            case Err(e) => Failure(500, "Database Error: " + e, calls)
            case Ok(payment) => Handled(200, PaymentTypes.PaymentResponse(true, Processed, Some(payment)), calls)
  }

  /** Each outside call is made only after the previous one succeeded, with the values the
      previous one returned; the reply is a success exactly when all three succeeded. A
      failing call ends the handler with status 500, no payment, and a message naming the
      call followed by its error text. */
  lemma CallsInOrder(flag: Option<bool>, req: StripePaymentRequest, paymentId: string,
                     tokens: CardParams -> Result<string, string>,
                     charges: ChargeParams -> Result<string, string>,
                     save: PaymentTypes.Payment -> Result<PaymentTypes.Payment, string>)
    requires flag != Some(true) && FirstFailure(req).None?
    ensures var h := ProcessPayment(flag, Some(req), paymentId, tokens, charges, save);
      var card := CardFor(req);
      1 <= |h.calls| && h.calls[0] == CreateToken(card) &&
      (|h.calls| >= 2 <==> tokens(card).Ok?) &&
      (|h.calls| >= 2 ==>
        var charge := ChargeParams(Cents(req.amount), req.currency, tokens(card).value);
        h.calls[1] == CreateCharge(charge) &&
        (|h.calls| == 3 <==> charges(charge).Ok?) &&
        (|h.calls| == 3 ==>
          |req.cardNumber| >= 4 &&
          var row := InsertedPayment(req, paymentId, charges(charge).value);
          h.calls[2] == SavePayment(row) &&
          (h.response.success <==> save(row).Ok?) &&
          (h.response.success ==> h.response.payment == Some(save(row).value))))
    ensures var h := ProcessPayment(flag, Some(req), paymentId, tokens, charges, save);
      var card := CardFor(req);
      (tokens(card).Err? ==>
        h.status == 500 && h.response.message == "Stripe Token Error: " + tokens(card).error) &&
      (tokens(card).Ok? ==>
        var charge := ChargeParams(Cents(req.amount), req.currency, tokens(card).value);
        (charges(charge).Err? ==>
          h.status == 500 && h.response.message == "Stripe Charge Error: " + charges(charge).error) &&
        (charges(charge).Ok? && |req.cardNumber| >= 4 ==>
          var row := InsertedPayment(req, paymentId, charges(charge).value);
          save(row).Err? ==> h.status == 500 && h.response.message == "Database Error: " + save(row).error))
    ensures var h := ProcessPayment(flag, Some(req), paymentId, tokens, charges, save);
      !h.response.success ==> h.status == 500 && h.response.payment.None?
  {
    AcceptedCardHasLastFour(req.cardNumber);
  }

  // ---------------------------------------------------------------------------------
  // The expiry split on validated dates

  /** A validated five-byte date is "MM/YY" in digits, and Stripe gets MM and "20YY". */
  lemma ShortDateSplit(expiryDate: GoString)
    requires ExpiryDateValid(expiryDate) && |expiryDate| == 5
    ensures expiryDate[2] == '/'
    ensures ExpirySplit(expiryDate).0 == expiryDate[..2] && AllDigits(expiryDate[..2])
    ensures ExpirySplit(expiryDate).1 == "20" + expiryDate[3..] && AllDigits(expiryDate[3..])
  {
    var k := AcceptedDateShape(expiryDate);
    assert k == 2;
  }

  /** A validated date can have a length the split does not expect: "MM/YY " passes the
      check and Stripe gets the fixed month "12" and year "2025". */
  lemma FallbackReachable(month: GoString, year: GoString)
    requires |month| == 2 && |year| == 2 && AllDigits(month) && AllDigits(year)
    ensures var e := month + ['/'] + year + [' '];
      ExpiryDateValid(e) && ExpirySplit(e) == ("12", "2025")
  {
    TrailingSpaceAccepted(month, year);
  }

  /** A validated seven-byte date need not be "MM/YYYY": with two leading spaces,
      "  MM/YY" passes, and Stripe gets two spaces as the month and "M/YY" as the year. */
  lemma SevenByteSplitMisreads(month: GoString, year: GoString)
    requires |month| == 2 && |year| == 2 && AllDigits(month) && AllDigits(year)
    ensures var e := [' ', ' '] + month + ['/'] + year;
      ExpiryDateValid(e) && ExpirySplit(e) == ([' ', ' '], [month[1], '/'] + year)
  {
    var m := [' ', ' '] + month;
    var e := [' ', ' '] + month + ['/'] + year;
    assert e == m + ['/'] + year;
    SplitAround(m, '/', year);
    LeadingSpacesTrimmed(month);
    TrimSpaceNoSpace(year);
    assert e[..2] == [' ', ' '];
    assert e[3..] == [month[1], '/'] + year;
  }

  lemma LeadingSpacesTrimmed(month: GoString)
    requires |month| == 2 && AllDigits(month)
    ensures TrimSpace([' ', ' '] + month) == month
  {
    var m := [' ', ' '] + month;
    assert m[1..] == [' '] + month;
    assert m[1..][1..] == month;
    assert TrimLeft(m) == TrimLeft(month) == month;
    TrimSpaceNoSpace(month);
  }
}
