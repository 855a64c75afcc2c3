/** The in-memory payment service (`project/golang-backend/payment-service/main.go`): the
    `payments` map keyed by payment ID and the `paymentCounter` that numbers the IDs
    "PAY_1", "PAY_2", .... Its three validators are the same code as the card-only
    service's, so `BackendPaymentDb` and `BackendPaymentHandler.FirstFailure` serve here. The
    current year and the transaction ID are passed in. */
module PaymentStore {
  import opened Wrappers
  import opened Text
  import opened PaymentTypes
  import opened BackendPaymentDb
  import BackendPaymentHandler

  const Processed := "Payment processed successfully"

  function PaymentId(n: nat): string
  {
    "PAY_" + Decimal(n)
  }

  class Store {
    var payments: map<string, Payment>
    var paymentCounter: nat

    /** Every stored payment sits under its own ID, and every ID is "PAY_<k>" for a
        counter value already handed out, so the next counter value gives a fresh ID. */
    ghost predicate Valid()
      reads this
    {
      forall id :: id in payments ==>
        payments[id].id == id && exists k: nat :: 1 <= k <= paymentCounter && id == PaymentId(k)
    }

    constructor ()
      ensures Valid() && payments == map[] && paymentCounter == 0
    {
      payments := map[];
      paymentCounter := 0;
    }

    /** The next ID is not in use. */
    lemma NextIdFresh()
      requires Valid()
      ensures PaymentId(paymentCounter + 1) !in payments
    {
      if PaymentId(paymentCounter + 1) in payments {
        var k: nat :| 1 <= k <= paymentCounter && PaymentId(paymentCounter + 1) == PaymentId(k);
        TaggedDecimalInjective("PAY_", paymentCounter + 1, k);
      }
    }

    /** `processPayment`: a request that fails to decode or fails a check changes nothing;
        an accepted one is stored under "PAY_<counter+1>", which was not in use. */
    method ProcessPayment(body: Option<PaymentRequest>, currentYear: nat, transactionId: string)
      returns (reply: Reply)
      requires Valid()
      modifies this
      ensures Valid()
      ensures body.None? ==> reply == BackendPaymentHandler.Rejected(BackendPaymentHandler.InvalidFormat)
      ensures body.Some? && BackendPaymentHandler.FirstFailure(body.value, currentYear).Some? ==>
        reply == BackendPaymentHandler.Rejected(BackendPaymentHandler.FirstFailure(body.value, currentYear).value)
      ensures (body.None? || BackendPaymentHandler.FirstFailure(body.value, currentYear).Some?) ==>
        payments == old(payments) && paymentCounter == old(paymentCounter)
      ensures body.Some? && BackendPaymentHandler.FirstFailure(body.value, currentYear).None? ==>
        var id := PaymentId(old(paymentCounter) + 1);
        |body.value.cardNumber| >= 4 &&
        paymentCounter == old(paymentCounter) + 1 &&
        id !in old(payments) &&
        payments == old(payments)[id := CompletedPayment(id, body.value, transactionId)] &&
        reply == Json(200, PaymentResponse(true, Processed, Some(payments[id])))
    {
      if body.None? {
        return BackendPaymentHandler.Rejected(BackendPaymentHandler.InvalidFormat);
      }
      var req := body.value;
      var ok := ValidateCardNumber(req.cardNumber);
      if !ok {
        return BackendPaymentHandler.Rejected(BackendPaymentHandler.InvalidCard);
      }
      if !ValidateExpiryDate(req.expiryDate, currentYear) {
        return BackendPaymentHandler.Rejected(BackendPaymentHandler.InvalidExpiry);
      }
      if !ValidateCVV(req.cvv) {
        return BackendPaymentHandler.Rejected(BackendPaymentHandler.InvalidCvv);
      }
      NextIdFresh();
      paymentCounter := paymentCounter + 1;
      var paymentId := PaymentId(paymentCounter);
      var payment := CompletedPayment(paymentId, req, transactionId);
      payments := payments[paymentId := payment];
      reply := Json(200, PaymentResponse(true, Processed, Some(payment)));
    }

    /** `getPayment`: the stored payment with that ID, or not-found; nothing changes. */
    method GetPayment(paymentId: string) returns (r: Option<Payment>)
      ensures r.Some? <==> paymentId in payments
      ensures r.Some? ==> r.value == payments[paymentId]
    {
      if paymentId in payments {
        return Some(payments[paymentId]);
      }
      return None;
    }

    /** `getPaymentByOrderID`: scans the map (in no particular order) for a payment of the
        order; not-found exactly when the order has none. */
    method GetPaymentByOrderId(orderId: string) returns (r: Option<Payment>)
      ensures r.Some? ==> r.value.orderId == orderId && exists id :: id in payments && payments[id] == r.value
      ensures r.None? <==> forall id :: id in payments ==> payments[id].orderId != orderId
    {
      var remaining := payments.Keys;
      while remaining != {}
        invariant remaining <= payments.Keys
        invariant forall id :: id in payments && id !in remaining ==> payments[id].orderId != orderId
        decreases |remaining|
      {
        var id :| id in remaining;
        if payments[id].orderId == orderId {
          return Some(payments[id]);
        }
        remaining := remaining - {id};
      }
      return None;
    }

    /** `refundPayment`: marks an existing payment "refunded" and touches nothing else; an
        unknown ID changes nothing. */
    method RefundPayment(paymentId: string) returns (r: Option<Payment>)
      requires Valid()
      modifies this
      ensures Valid() && paymentCounter == old(paymentCounter)
      ensures paymentId !in old(payments) ==> r.None? && payments == old(payments)
      ensures paymentId in old(payments) ==>
        payments == old(payments)[paymentId := old(payments)[paymentId].(status := "refunded")] &&
        r == Some(payments[paymentId])
    {
      if paymentId !in payments {
        return None;
      }
      var payment := payments[paymentId].(status := "refunded");
      payments := payments[paymentId := payment];
      return Some(payment);
    }
  }
}
