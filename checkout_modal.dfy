/** The checkout form of the storefront (`src/frontend/src/components/CheckoutModal.tsx`):
    four payment fields edited through one change handler, the e-mail and address fields,
    and a submit that waits, hands the form to `onSubmit`, clears the form and drops the
    processing flag. The wait is split into the click (`ClickSubmit`) and the timer firing
    (`TimerFires`); `onSubmit` is the caller's, so the model only reports what it is handed
    and whether it threw. */
module CheckoutModal {
  import opened Wrappers
  import opened ProductTypes

  const EmptyDetails := PaymentDetails("", "", "", "")

  /** The `name` attribute of an input wired to `handleChange`. */
  datatype Field = CardNumber | CardHolder | ExpiryDate | Cvv

  function Get(d: PaymentDetails, f: Field): string
  {
    match f
    case CardNumber => d.cardNumber
    case CardHolder => d.cardHolder
    case ExpiryDate => d.expiryDate
    case Cvv => d.cvv
  }

  /** `{ ...prev, [name]: value }`: the named field takes the value, the others keep theirs. */
  function WithField(d: PaymentDetails, f: Field, value: string): (r: PaymentDetails)
    ensures Get(r, f) == value
    ensures forall g :: g != f ==> Get(r, g) == Get(d, g)
  {
    match f
    case CardNumber => d.(cardNumber := value)
    case CardHolder => d.(cardHolder := value)
    case ExpiryDate => d.(expiryDate := value)
    case Cvv => d.(cvv := value)
  }

  /** Two records with the same four fields are the same record. */
  lemma FieldsDetermine(d: PaymentDetails, e: PaymentDetails)
    requires forall f :: Get(d, f) == Get(e, f)
    ensures d == e
  {
    assert Get(d, CardNumber) == Get(e, CardNumber) && Get(d, CardHolder) == Get(e, CardHolder);
    assert Get(d, ExpiryDate) == Get(e, ExpiryDate) && Get(d, Cvv) == Get(e, Cvv);
  }

  /** Writing a field back with the value it has changes nothing; the last of two writes to
      the same field wins. */
  lemma WithFieldLaws(d: PaymentDetails, f: Field, v: string, w: string)
    ensures WithField(d, f, Get(d, f)) == d
    ensures WithField(WithField(d, f, v), f, w) == WithField(d, f, w)
  {
    FieldsDetermine(WithField(d, f, Get(d, f)), d);
    FieldsDetermine(WithField(WithField(d, f, v), f, w), WithField(d, f, w));
  }

  /** The modal as drawn: nothing while closed, else the form with its submit button. */
  datatype ModalView = Hidden | Shown(submitDisabled: bool, submitLabel: string)

  class Modal {
    var formData: PaymentDetails
    var email: string
    var address: string
    var processing: bool
    /** The form data the pending submit closed over, while the timer runs. */
    var pending: Option<PaymentDetails>

    /** The processing flag is up exactly while a submit waits for its timer. */
    ghost predicate Valid()
      reads this
    {
      processing <==> pending.Some?
    }

    constructor ()
      ensures Valid()
      ensures formData == EmptyDetails && email == "" && address == "" && !processing
    {
      formData := EmptyDetails;
      email := "";
      address := "";
      processing := false;
      pending := None;
    }

    /** Every input is `required`; the browser submits only when all six are filled. */
    predicate Complete()
      reads this
    {
      formData.cardNumber != "" && formData.cardHolder != "" && formData.expiryDate != "" &&
      formData.cvv != "" && email != "" && address != ""
    }

    /** `handleChange` for the input named `f`. */
    method HandleChange(f: Field, value: string)
      requires Valid()
      modifies this
      ensures Valid()
      ensures formData == WithField(old(formData), f, value)
      ensures email == old(email) && address == old(address)
      ensures processing == old(processing) && pending == old(pending)
    {
      formData := WithField(formData, f, value);
    }

    method SetEmail(value: string)
      requires Valid()
      modifies this
      ensures Valid()
      ensures email == value
      ensures formData == old(formData) && address == old(address)
      ensures processing == old(processing) && pending == old(pending)
    {
      email := value;
    }

    method SetAddress(value: string)
      requires Valid()
      modifies this
      ensures Valid()
      ensures address == value
      ensures formData == old(formData) && email == old(email)
      ensures processing == old(processing) && pending == old(pending)
    {
      address := value;
    }

    /** Pressing "Complete Purchase". The button is disabled while processing, and the
        browser holds back a form with an empty required field or an e-mail it does not
        accept as an address (`emailAccepted`); otherwise `handleSubmit` raises the flag
        and waits, holding the form data of this moment. */
    method ClickSubmit(emailAccepted: bool) returns (submitted: bool)
      requires Valid()
      modifies this
      ensures Valid()
      ensures submitted <==> !old(processing) && old(Complete()) && emailAccepted
      ensures submitted ==> processing && pending == Some(old(formData))
      ensures !submitted ==> processing == old(processing) && pending == old(pending)
      ensures formData == old(formData) && email == old(email) && address == old(address)
    {
      if processing || !Complete() || !emailAccepted {
        return false;
      }
      processing := true;
      pending := Some(formData);
      return true;
    }

    /** The 1.5-second timer of a pending submit fires: `onSubmit` gets the form data the
        submit held (edits made during the wait do not reach it). If `onSubmit` returns, the
        six fields are cleared; if it throws (`onSubmitThrows`), they are left and the
        exception goes on (`rethrown`). Either way the flag drops. */
    method TimerFires(onSubmitThrows: bool) returns (submittedData: PaymentDetails, rethrown: bool)
      requires Valid() && pending.Some?
      modifies this
      ensures Valid()
      ensures submittedData == old(pending).value
      ensures !processing && pending.None?
      ensures rethrown == onSubmitThrows
      ensures !onSubmitThrows ==> formData == EmptyDetails && email == "" && address == ""
      ensures onSubmitThrows ==> formData == old(formData) && email == old(email) && address == old(address)
    {
      submittedData := pending.value;
      rethrown := onSubmitThrows;
      if !onSubmitThrows {
        formData := EmptyDetails;
        email := "";
        address := "";
      }
      processing := false;
      pending := None;
    }

    /** Nothing is drawn while the modal is closed; the submit button is disabled, and
        reads "Processing...", exactly while processing. */
    function View(isOpen: bool): (v: ModalView)
      reads this
      ensures v.Hidden? <==> !isOpen
      ensures v.Shown? ==> (v.submitDisabled <==> processing)
      ensures v.Shown? ==> v.submitLabel == if processing then "Processing..." else "Complete Purchase"
    {
      if !isOpen then Hidden
      else Shown(processing, if processing then "Processing..." else "Complete Purchase")
    }
  }
}
