/** The validators of the Stripe-backed payment service (`src/payment-service/db`): the card
    number is stripped of spaces and dashes, must be 13 to 19 decimal digits and pass the
    Luhn formula; the expiry date is checked for shape only; the CVV must be 3 or 4 digits.
    Each validator walks the string with a loop and returns at the first bad character. */
module StripePaymentDb {
  import opened Text
  import opened Luhn
  import PaymentTypes

  /** The request body of this service, which also names a currency. */
  datatype StripePaymentRequest = StripePaymentRequest(
    orderId: string,
    amount: real,
    currency: string,
    cardNumber: GoString,
    cardHolder: string,
    expiryDate: GoString,
    cvv: GoString)

  /** Spaces and dashes removed (`strings.ReplaceAll` twice). */
  function Stripped(raw: GoString): (s: GoString)
    ensures ' ' !in s && '-' !in s && |s| <= |raw|
  {
    RemoveAll(RemoveAll(raw, ' '), '-')
  }

  // ---------------------------------------------------------------------------------
  // What each validator accepts

  predicate CardNumberValid(raw: GoString)
  {
    var s := Stripped(raw);
    13 <= |s| <= 19 && AllDigits(s) && LuhnValid(DigitValues(s))
  }

  predicate ExpiryDateValid(expiryDate: GoString)
  {
    var parts := Split(expiryDate, '/');
    |parts| == 2 &&
    var month, year := TrimSpace(parts[0]), TrimSpace(parts[1]);
    |month| == 2 && (|year| == 2 || |year| == 4) && AllDigits(month) && AllDigits(year)
  }

  predicate CvvValid(cvv: GoString)
  {
    3 <= |cvv| <= 4 && AllDigits(cvv)
  }

  // ---------------------------------------------------------------------------------
  // The validators as the service runs them

  /** `luhnCheck`: indexes from the left and doubles where `i % 2 == len % 2`, which is
      every second digit counting from the rightmost. The service only calls it on digit
      strings; on other ASCII text it folds in `r - '0'` all the same. */
  method LuhnCheck(cardNumber: GoString) returns (ok: bool)
    requires IsAscii(cardNumber)
    ensures ok <==> LuhnValid(DigitValues(cardNumber))
  {
    ghost var ds := DigitValues(cardNumber);
    var nDigits := |cardNumber|;
    var parity := nDigits % 2;
    var total := 0;
    var i := 0;
    while i < nDigits
      invariant 0 <= i <= nDigits
      invariant total == LuhnSum(ds[..i], (i + 1) % 2 == parity)
    {
      var digit := cardNumber[i] as int - '0' as int;
      if i % 2 == parity {
        digit := digit * 2;
        if digit > 9 {
          digit := digit - 9;
        }
      }
      total := total + digit;
      assert ds[..i + 1][..i] == ds[..i];
      i := i + 1;
    }
    assert ds[..nDigits] == ds;
    // Go's `%` truncates, but a zero remainder means the same under either convention.
    ok := total % 10 == 0;
  }

  method ValidateCardNumber(cardNumber: GoString) returns (ok: bool)
    ensures ok <==> CardNumberValid(cardNumber)
  {
    var s := RemoveAll(cardNumber, ' ');
    s := RemoveAll(s, '-');
    if |s| < 13 || |s| > 19 {
      return false;
    }
    ok := AllDigitsLoop(s);
    if !ok {
      return false;
    }
    ok := LuhnCheck(s);
  }

  /** True when every byte of `s` is a decimal digit (the `for _, r := range` loops; a
      byte outside ASCII never belongs to a digit rune either). */
  method AllDigitsLoop(s: GoString) returns (ok: bool)
    ensures ok <==> AllDigits(s)
  {
    var i := 0;
    while i < |s|
      invariant 0 <= i <= |s|
      invariant forall k :: 0 <= k < i ==> IsDigit(s[k])
    {
      if s[i] < '0' || s[i] > '9' {
        return false;
      }
      i := i + 1;
    }
    return true;
  }

  method ValidateExpiryDate(expiryDate: GoString) returns (ok: bool)
    ensures ok <==> ExpiryDateValid(expiryDate)
  {
    var parts := Split(expiryDate, '/');
    if |parts| != 2 {
      return false;
    }
    var month := TrimSpace(parts[0]);
    var year := TrimSpace(parts[1]);
    if |month| != 2 {
      return false;
    }
    if |year| != 2 && |year| != 4 {
      return false;
    }
    ok := AllDigitsLoop(month);
    if !ok {
      return false;
    }
    ok := AllDigitsLoop(year);
  }

  method ValidateCVV(cvv: GoString) returns (ok: bool)
    ensures ok <==> CvvValid(cvv)
  {
    if |cvv| < 3 || |cvv| > 4 {
      return false;
    }
    ok := AllDigitsLoop(cvv);
  }

  // ---------------------------------------------------------------------------------
  // Properties

  /** Inserting a space or a dash anywhere never changes the verdict, so "4111 1111 ..."
      and "4111-1111-..." are judged as "41111111...". */
  lemma SeparatorIgnored(a: GoString, b: GoString, c: char)
    requires c == ' ' || c == '-'
    ensures Stripped(a + [c] + b) == Stripped(a + b)
    ensures CardNumberValid(a + [c] + b) <==> CardNumberValid(a + b)
  {
    var x, y := a + [c] + b, a + b;
    RemoveAllAppend(a, b, ' ');
    if c == '-' {
      RemoveAllKeeps(a, c, b, ' ');
      RemoveAllInserted(RemoveAll(a, ' '), c, RemoveAll(b, ' '));
    } else {
      RemoveAllInserted(a, c, b);
    }
    assert Stripped(y) == RemoveAll(RemoveAll(y, ' '), '-');
    assert Stripped(x) == RemoveAll(RemoveAll(x, ' '), '-');
  }

  /** An accepted card number has at least 13 bytes, so the last-four slice taken of the
      unstripped number when the payment is created is in bounds. */
  lemma AcceptedCardHasLastFour(raw: GoString)
    requires CardNumberValid(raw)
    ensures |raw| >= 13
  {
  }

  /** The slice is of the raw number, so a separator typed after the digits ends up in
      the recorded last four. */
  lemma LastFourKeepsSeparator(cardNumber: GoString)
    requires CardNumberValid(cardNumber)
    ensures CardNumberValid(cardNumber + [' '])
    ensures |cardNumber + [' ']| >= 4 && PaymentTypes.LastFour(cardNumber + [' '])[3] == ' '
  {
    SeparatorIgnored(cardNumber, [], ' ');
    assert cardNumber + [' '] + [] == cardNumber + [' '];
    assert cardNumber + [] == cardNumber;
  }

  /** No calendar check: any two digits pass as a month, "13/99" included. */
  lemma MonthNotRangeChecked()
    ensures ExpiryDateValid("13/99")
  {
    DigitDatesAccepted("13", "99");
    assert "13" + ['/'] + "99" == "13/99";
  }

  /** White space around the year is trimmed away before the length checks, so a date
      followed by a space passes with six characters. */
  lemma TrailingSpaceAccepted(month: GoString, year: GoString)
    requires |month| == 2 && |year| == 2 && AllDigits(month) && AllDigits(year)
    ensures ExpiryDateValid(month + ['/'] + year + [' '])
    ensures |month + ['/'] + year + [' ']| == 6
  {
    var y := year + [' '];
    var e := month + ['/'] + year + [' '];
    assert e == month + ['/'] + y;
    SplitAround(month, '/', y);
    TrimSpaceNoSpace(month);
    TrailingSpaceTrimmed(year);
  }

  lemma TrailingSpaceTrimmed(year: GoString)
    requires |year| == 2 && AllDigits(year)
    ensures TrimSpace(year + [' ']) == year
  {
    var y := year + [' '];
    assert TrimLeft(y) == y;
    assert y[..|y| - 1] == year;
    assert TrimRight(y) == TrimRight(year);
    TrimSpaceNoSpace(year);
  }

  /** A date of the form MM/YY or MM/YYYY, all digits, is accepted. */
  lemma DigitDatesAccepted(month: GoString, year: GoString)
    requires |month| == 2 && (|year| == 2 || |year| == 4) && AllDigits(month) && AllDigits(year)
    ensures ExpiryDateValid(month + ['/'] + year)
  {
    SplitAround(month, '/', year);
    TrimSpaceNoSpace(month);
    TrimSpaceNoSpace(year);
  }

  /** Every accepted date holds exactly one '/', and the parts on either side of it trim to
      a two-digit month and a two- or four-digit year. */
  lemma AcceptedDateShape(expiryDate: GoString) returns (k: nat)
    requires ExpiryDateValid(expiryDate)
    ensures k < |expiryDate| && expiryDate[k] == '/'
    ensures '/' !in expiryDate[..k] && '/' !in expiryDate[k + 1..]
    ensures |TrimSpace(expiryDate[..k])| == 2 && AllDigits(TrimSpace(expiryDate[..k]))
    ensures |TrimSpace(expiryDate[k + 1..])| in {2, 4} && AllDigits(TrimSpace(expiryDate[k + 1..]))
  {
    k := SplitOne(expiryDate, '/');
  }

  // ---------------------------------------------------------------------------------
  // The row `CreatePayment` inserts

  /** The values `CreatePayment` inserts, with the clock-derived ID and the charge ID passed
      in: the request's order, amount and currency, status "completed", and the last four
      bytes of the card number as the client sent it. The row the database hands back is
      not modelled. */
  function InsertedPayment(req: StripePaymentRequest, paymentId: string, transactionId: string): (p: PaymentTypes.Payment)
    requires |req.cardNumber| >= 4
    ensures p.id == paymentId && p.orderId == req.orderId && p.amount == req.amount
    ensures p.currency == req.currency && p.status == "completed" && p.transactionId == transactionId
    ensures req.cardNumber == req.cardNumber[..|req.cardNumber| - 4] + p.cardLastFour
  {
    PaymentTypes.Payment(paymentId, req.orderId, req.amount, req.currency, "completed",
                         PaymentTypes.LastFour(req.cardNumber), transactionId)
  }
}
