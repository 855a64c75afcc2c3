/** The validators and payment record of the card-only payment service
    (`src/backend/payment-service/db`); `project/golang-backend/payment-service` carries the
    same three validators, character for character. The card number is only length-checked
    and run through a right-to-left Luhn loop, with every byte folded in as `byte(c - '0')`;
    the expiry date must be exactly "MM/YY" as `fmt.Sscanf` reads it, and not before the
    current year; the CVV check looks at the length only. */
module BackendPaymentDb {
  import opened Wrappers
  import opened Text
  import opened Luhn
  import opened PaymentTypes
  import StripePaymentDb

  // ---------------------------------------------------------------------------------
  // Card number

  /** `int(cardNumber[i] - '0')`: the subtraction is on bytes, so it wraps modulo 256. */
  function ByteDigit(c: char): (d: int)
    ensures 0 <= d < 256
    ensures IsDigit(c) ==> d == DigitValue(c)
  {
    (c as int - '0' as int) % 256
  }

  function ByteDigits(s: GoString): (ds: seq<int>)
    ensures |ds| == |s|
  {
    seq(|s|, i requires 0 <= i < |s| => ByteDigit(s[i]))
  }

  predicate CardNumberValid(cardNumber: GoString)
  {
    13 <= |cardNumber| <= 19 && LuhnValid(ByteDigits(cardNumber))
  }

  /** `ValidateCardNumber`: walks from the last byte to the first, doubling every second
      value starting with the one left of the last. */
  method ValidateCardNumber(cardNumber: GoString) returns (ok: bool)
    ensures ok <==> CardNumberValid(cardNumber)
  {
    if |cardNumber| < 13 || |cardNumber| > 19 {
      return false;
    }
    ghost var ds := ByteDigits(cardNumber);
    var sum := 0;
    var isEven := false;
    var i := |cardNumber| - 1;
    assert ds[..i + 1] == ds;
    while i >= 0
      invariant -1 <= i < |cardNumber|
      invariant sum + LuhnSum(ds[..i + 1], isEven) == LuhnSum(ds, false)
      decreases i
    {
      var digit := (cardNumber[i] as int - '0' as int) % 256;
      if isEven {
        digit := digit * 2;
        if digit > 9 {
          digit := digit - 9;
        }
      }
      sum := sum + digit;
      isEven := !isEven;
      assert ds[..i + 1][..i] == ds[..i];
      i := i - 1;
    }
    ok := sum % 10 == 0;
  }

  /** On strings of decimal digits the two services' card checks give the same verdict:
      both are the Luhn formula, one walking from the left with a parity test, the other
      from the right with an alternating flag. */
  lemma AgreesOnDigitStrings(cardNumber: GoString)
    requires AllDigits(cardNumber)
    ensures CardNumberValid(cardNumber) <==> StripePaymentDb.CardNumberValid(cardNumber)
  {
    assert ByteDigits(cardNumber) == DigitValues(cardNumber);
    RemoveAllAbsent(cardNumber, ' ');
    RemoveAllAbsent(cardNumber, '-');
  }

  /** No digit check: ':' folds in as 10, which the formula cannot tell from '0' in the
      last place, so this service accepts a card number the other service rejects. */
  lemma ColonPassesAsZero(payload: GoString)
    requires CardNumberValid(payload + ['0'])
    ensures CardNumberValid(payload + [':'])
    ensures !StripePaymentDb.CardNumberValid(payload + [':'])
  {
    assert ByteDigits(payload + ['0']) == ByteDigits(payload) + [0];
    assert ByteDigits(payload + [':']) == ByteDigits(payload) + [10];
    AppendDigit(ByteDigits(payload), 0);
    AppendDigit(ByteDigits(payload), 10);
    StrippedEndsWithColon(payload);
  }

  lemma StrippedEndsWithColon(payload: GoString)
    ensures !StripePaymentDb.CardNumberValid(payload + [':'])
  {
    var s := payload + [':'];
    assert s == payload + [':'] + [];
    RemoveAllKeeps(payload, ':', [], ' ');
    var p1 := RemoveAll(payload, ' ');
    assert RemoveAll(s, ' ') == p1 + [':'] + [];
    RemoveAllKeeps(p1, ':', [], '-');
    var t := StripePaymentDb.Stripped(s);
    assert t == RemoveAll(p1, '-') + [':'] + [];
    assert t[|t| - 1] == ':';
  }

  // ---------------------------------------------------------------------------------
  // Expiry date

  /** The white space `fmt`'s scanner skips before a number on one line. */
  predicate IsScanSpace(c: char)
  {
    c == ' ' || c == '\t' || c == '\r' || c as int == 11 || c as int == 12
  }

  /** What `fmt.Sscanf(s, "%d", &v)` leaves in `v` (which starts at 0) for a two-byte `s`:
      optional white space, an optional sign, then at least one digit; text after the
      number is ignored, and when no number can be read `v` keeps its 0. */
  function ScanTwoBytes(s: GoString): (v: int)
    requires |s| == 2
    ensures -9 <= v <= 99
    ensures IsDigit(s[0]) && IsDigit(s[1]) ==> v == 10 * DigitValue(s[0]) + DigitValue(s[1])
    ensures !IsDigit(s[0]) && !IsDigit(s[1]) ==> v == 0
  {
    var a, b := s[0], s[1];
    if IsDigit(a) then
      if IsDigit(b) then 10 * DigitValue(a) + DigitValue(b) else DigitValue(a)
    else if a == '+' && IsDigit(b) then DigitValue(b)
    else if a == '-' && IsDigit(b) then -DigitValue(b)
    else if IsScanSpace(a) && IsDigit(b) then DigitValue(b)
    else 0
  }

  /** `ValidateExpiryDate`, with `time.Now().Year()` passed in as `currentYear`. */
  predicate ValidateExpiryDate(expiryDate: GoString, currentYear: nat)
  {
    |expiryDate| == 5 && expiryDate[2] == '/' &&
    var m, y := ScanTwoBytes(expiryDate[..2]), ScanTwoBytes(expiryDate[3..]);
    1 <= m <= 12 && y >= currentYear % 100
  }

  /** Only five-byte texts with '/' in the middle can pass. */
  lemma ExpiryShape(expiryDate: GoString, currentYear: nat)
    requires ValidateExpiryDate(expiryDate, currentYear)
    ensures |expiryDate| == 5 && expiryDate[2] == '/'
  {
  }

  /** On "MM/YY" written in digits: accepted exactly when MM is a month and YY is not
      before the current year's last two digits. */
  lemma ExpiryOfDigits(expiryDate: GoString, currentYear: nat)
    requires |expiryDate| == 5 && expiryDate[2] == '/'
    requires IsDigit(expiryDate[0]) && IsDigit(expiryDate[1])
    requires IsDigit(expiryDate[3]) && IsDigit(expiryDate[4])
    ensures ValidateExpiryDate(expiryDate, currentYear) <==>
      var mm := 10 * DigitValue(expiryDate[0]) + DigitValue(expiryDate[1]);
      var yy := 10 * DigitValue(expiryDate[3]) + DigitValue(expiryDate[4]);
      1 <= mm <= 12 && yy >= currentYear % 100
  {
    assert expiryDate[..2][0] == expiryDate[0] && expiryDate[..2][1] == expiryDate[1];
    assert expiryDate[3..][0] == expiryDate[3] && expiryDate[3..][1] == expiryDate[4];
  }

  /** The scanner is lenient: a one-digit month after a space or a '+', or followed by any
      non-digit, reads as that month. */
  lemma OneDigitMonthAccepted(d: char, c: char, year: GoString, currentYear: nat)
    requires '1' <= d <= '9' && !IsDigit(c) && |year| == 2
    requires IsDigit(year[0]) && IsDigit(year[1])
    requires 10 * DigitValue(year[0]) + DigitValue(year[1]) >= currentYear % 100
    ensures ValidateExpiryDate([' ', d, '/'] + year, currentYear)
    ensures ValidateExpiryDate(['+', d, '/'] + year, currentYear)
    ensures ValidateExpiryDate([d, c, '/'] + year, currentYear)
  {
    var e1, e2, e3 := [' ', d, '/'] + year, ['+', d, '/'] + year, [d, c, '/'] + year;
    assert e1[..2] == [' ', d] && e1[3..] == year;
    assert e2[..2] == ['+', d] && e2[3..] == year;
    assert e3[..2] == [d, c] && e3[3..] == year;
  }

  /** A year without digits reads as 0, which passes only in years ending in 00. */
  lemma UnreadableYear(expiryDate: GoString, currentYear: nat)
    requires |expiryDate| == 5 && expiryDate[2] == '/'
    requires !IsDigit(expiryDate[3]) && !IsDigit(expiryDate[4])
    ensures ValidateExpiryDate(expiryDate, currentYear) <==>
      1 <= ScanTwoBytes(expiryDate[..2]) <= 12 && currentYear % 100 == 0
  {
    assert expiryDate[3..][0] == expiryDate[3] && expiryDate[3..][1] == expiryDate[4];
  }

  // ---------------------------------------------------------------------------------
  // CVV

  predicate ValidateCVV(cvv: GoString)
  {
    |cvv| >= 3 && |cvv| <= 4
  }

  /** Any three or four bytes pass; on digit strings the verdict agrees with the other
      service's digit-checking CVV test. */
  lemma CvvLengthOnly(cvv: GoString)
    ensures ValidateCVV(cvv) <==> 3 <= |cvv| <= 4
    ensures AllDigits(cvv) ==> (ValidateCVV(cvv) <==> StripePaymentDb.CvvValid(cvv))
  {
  }

  // ---------------------------------------------------------------------------------
  // Payment record

  /** `CreatePayment`, with the clock-derived payment ID, the transaction ID and the
      result of the insert passed in: a failed insert is reported, otherwise the payment
      that was written is returned. */
  function CreatePayment(req: PaymentRequest, paymentId: string, transactionId: string,
                         insertError: Option<string>): (r: Result<Payment, string>)
    requires |req.cardNumber| >= 4
    ensures r.Err? <==> insertError.Some?
    ensures r.Err? ==> r.error == insertError.value
    ensures r.Ok? ==> r.value.currency == "USD" && r.value.status == "completed"
    ensures r.Ok? ==> r.value.id == paymentId && r.value.transactionId == transactionId
    ensures r.Ok? ==> r.value.orderId == req.orderId && r.value.amount == req.amount
    ensures r.Ok? ==> req.cardNumber == req.cardNumber[..|req.cardNumber| - 4] + r.value.cardLastFour
  {
    match insertError
    case Some(e) => Err(e)
    case None => Ok(CompletedPayment(paymentId, req, transactionId))
  }
}
