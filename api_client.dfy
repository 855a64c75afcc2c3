/** The storefront's service client (`src/frontend/src/api/client.ts`): the request bodies it
    posts and what each call makes of the response, in particular the error it throws for a
    response that is not OK. `fetch` itself is not modelled: a response is given as its OK
    flag, status, text and the result of parsing the text as JSON. */
module ApiClient {
  import opened Wrappers
  import opened Text
  import ProductTypes
  import CartOrderStore
  import ShoppingCartView

  /** A JSON value as the script sees it after `JSON.parse`. */
  datatype Json =
    | JNull
    | JBool(b: bool)
    | JNumber(n: real)
    | JString(s: string)
    | JArray(elems: seq<Json>)
    | JObject(members: map<string, Json>)

  /** The script's truthiness of a value, `None` standing for `undefined` (NaN is not
      modelled). */
  predicate Truthy(v: Option<Json>)
  {
    match v
    case None => false
    case Some(JNull) => false
    case Some(JBool(b)) => b
    case Some(JNumber(n)) => n != 0.0
    case Some(JString(s)) => s != ""
    case Some(JArray(_)) => true
    case Some(JObject(_)) => true
  }

  /** `j.key`: an object's member, `undefined` otherwise. Reading a member of `null` throws,
      so the caller must rule it out. */
  function Member(j: Json, key: string): (r: Option<Json>)
    requires !j.JNull?
    ensures r.Some? <==> j.JObject? && key in j.members
    ensures r.Some? ==> r.value == j.members[key]
  {
    if j.JObject? && key in j.members then Some(j.members[key]) else None
  }

  /** `a || b`. */
  function Or(a: Option<Json>, b: Option<Json>): (r: Option<Json>)
    ensures Truthy(a) ==> r == a
    ensures !Truthy(a) ==> r == b
  {
    if Truthy(a) then a else b
  }

  /** A response as the client reads it: `ok`, `status`, the body text, and that text parsed
      as JSON (`None` when `JSON.parse` or `response.json()` would throw). */
  datatype Response = Response(ok: bool, status: nat, text: string, body: Option<Json>)

  /** What a call throws: an `Error` with its message value (converted to text by `Error`),
      or the `SyntaxError`/`TypeError` the runtime raises. */
  datatype Thrown = Error(message: Json) | SyntaxError | TypeError

  datatype Outcome = Returned(value: Json) | Threw(error: Thrown)

  /** `return response.json()` on an OK response. */
  function Parsed(r: Response): (o: Outcome)
    ensures o.Returned? <==> r.body.Some?
    ensures o.Returned? ==> o.value == r.body.value
    ensures o.Threw? ==> o.error == SyntaxError
  {
    if r.body.Some? then Returned(r.body.value) else Threw(SyntaxError)
  }

  function LiteralError(message: string): Thrown
  {
    Error(JString(message))
  }

  // ---------------------------------------------------------------------------------
  // createCart

  const DefaultUserId := "user123"

  /** `{ userId }` with the parameter's default for `undefined`. */
  function CreateCartBody(userId: Option<Json>): (body: Json)
    ensures body.JObject? && body.members.Keys == {"userId"}
    ensures body.members["userId"] == if userId.None? then JString(DefaultUserId) else userId.value
  {
    JObject(map["userId" := if userId.None? then JString(DefaultUserId) else userId.value])
  }

  function CreateCartOutcome(r: Response): (o: Outcome)
    ensures !r.ok ==> o == Threw(LiteralError("Failed to create cart"))
    ensures r.ok ==> o == Parsed(r)
  {
    if !r.ok then Threw(LiteralError("Failed to create cart")) else Parsed(r)
  }

  // ---------------------------------------------------------------------------------
  // addItemToCart

  /** The posted item: product ID, name and price from the product, quantity, size and
      colour as they are; its JSON shape is the cart service's `CartItem`. */
  function AddItemBody(item: ProductTypes.CartItem): (b: CartOrderStore.CartItem)
    ensures b.productId == item.product.id && b.productName == item.product.name
    ensures b.price == item.product.price && b.quantity == item.quantity
    ensures b.selectedSize == item.selectedSize && b.selectedColor == item.selectedColor
  {
    CartOrderStore.CartItem(item.product.id, item.product.name, item.product.price, item.quantity,
                            item.selectedSize, item.selectedColor)
  }

  /** The message names the status and repeats the response text. */
  function AddItemOutcome(r: Response): (o: Outcome)
    ensures !r.ok ==> o == Threw(LiteralError("Failed to add item to cart: " + Decimal(r.status) + " " + r.text))
    ensures r.ok ==> o == Parsed(r)
  {
    if !r.ok then Threw(LiteralError("Failed to add item to cart: " + Decimal(r.status) + " " + r.text))
    else Parsed(r)
  }

  /** The bodies of a sequence of items, in order. */
  function ItemBodies(items: seq<ProductTypes.CartItem>): (bs: seq<CartOrderStore.CartItem>)
    ensures |bs| == |items|
    ensures forall i :: 0 <= i < |items| ==> bs[i] == AddItemBody(items[i])
    decreases |items|
  {
    if items == [] then [] else ItemBodies(items[..|items| - 1]) + [AddItemBody(items[|items| - 1])]
  }

  /** Posting the bag's items reproduces its total on the server: the cart service's
      Σ price × quantity over the posted bodies is the bag's `totalPrice`. */
  lemma {:induction false} ItemBodiesTotal(items: seq<ProductTypes.CartItem>)
    ensures CartOrderStore.Subtotal(ItemBodies(items)) == ShoppingCartView.TotalPrice(items)
    decreases |items|
  {
    if items != [] {
      var init, last := items[..|items| - 1], items[|items| - 1];
      ItemBodiesTotal(init);
      CartOrderStore.SubtotalSnoc(ItemBodies(init), AddItemBody(last));
    }
  }

  // ---------------------------------------------------------------------------------
  // createOrder

  function CreateOrderOutcome(r: Response): (o: Outcome)
    ensures !r.ok ==> o == Threw(LiteralError("Failed to create order"))
    ensures r.ok ==> o == Parsed(r)
  {
    if !r.ok then Threw(LiteralError("Failed to create order")) else Parsed(r)
  }

  // ---------------------------------------------------------------------------------
  // processPayment

  datatype PaymentBody = PaymentBody(
    orderId: string,
    amount: real,
    currency: string,
    cardNumber: string,
    cardHolder: string,
    expiryDate: string,
    cvv: string)

  /** The order and amount as given, currency "USD", the card fields as typed. */
  function PaymentBodyOf(details: ProductTypes.PaymentDetails, amount: real, orderId: string): (b: PaymentBody)
    ensures b.orderId == orderId && b.amount == amount && b.currency == "USD"
    ensures b.cardNumber == details.cardNumber && b.cardHolder == details.cardHolder
    ensures b.expiryDate == details.expiryDate && b.cvv == details.cvv
  {
    PaymentBody(orderId, amount, "USD", details.cardNumber, details.cardHolder, details.expiryDate, details.cvv)
  }

  /** A failed payment throws `errorData.message || 'Payment failed'`; a body that does not
      parse throws the parse error, and a `null` body the error of reading its member. */
  function PaymentOutcome(r: Response): (o: Outcome)
    ensures !r.ok ==> o.Threw?
    ensures !r.ok && r.body.None? ==> o.error == SyntaxError
    ensures !r.ok && r.body == Some(JNull) ==> o.error == TypeError
    ensures !r.ok && r.body.Some? && r.body.value != JNull ==>
      var m := Member(r.body.value, "message");
      o.error == Error(if Truthy(m) then m.value else JString("Payment failed"))
    ensures r.ok ==> o == Parsed(r)
  {
    if r.ok then Parsed(r)
    else match r.body
      case None => Threw(SyntaxError)
      case Some(JNull) => Threw(TypeError)
      case Some(j) => Threw(Error(Or(Member(j, "message"), Some(JString("Payment failed"))).value))
  }

  // ---------------------------------------------------------------------------------
  // signup and login

  function SignupBody(name: string, email: string, password: string): (body: Json)
    ensures body.JObject? && body.members.Keys == {"name", "email", "password"}
    ensures body.members["name"] == JString(name) && body.members["email"] == JString(email)
    ensures body.members["password"] == JString(password)
  {
    JObject(map["name" := JString(name), "email" := JString(email), "password" := JString(password)])
  }

  function LoginBody(email: string, password: string): (body: Json)
    ensures body.JObject? && body.members.Keys == {"email", "password"}
    ensures body.members["email"] == JString(email) && body.members["password"] == JString(password)
  {
    JObject(map["email" := JString(email), "password" := JString(password)])
  }

  /** The message of a failed signup or login. A body that parses to a value other than
      `null` gives its `error`, else its `message`, else the fallback (empty strings and
      other falsy values count as missing). A body that does not parse, or parses to
      `null` (reading its member throws inside the same `try`), gives the raw text, else
      the fallback. */
  function AuthErrorMessage(text: string, body: Option<Json>, fallback: string): (m: Json)
    ensures (body.None? || body == Some(JNull)) ==> m == JString(if text != "" then text else fallback)
    ensures body.Some? && body.value != JNull ==>
      var e, msg := Member(body.value, "error"), Member(body.value, "message");
      (Truthy(e) ==> m == e.value) &&
      (!Truthy(e) && Truthy(msg) ==> m == msg.value) &&
      (!Truthy(e) && !Truthy(msg) ==> m == JString(fallback))
  {
    match body
    case None => JString(if text != "" then text else fallback)
    case Some(JNull) => JString(if text != "" then text else fallback)
    case Some(j) => Or(Or(Member(j, "error"), Member(j, "message")), Some(JString(fallback))).value
  }

  function SignupOutcome(r: Response): (o: Outcome)
    ensures !r.ok ==> o == Threw(Error(AuthErrorMessage(r.text, r.body, "Signup failed")))
    ensures r.ok ==> o == Parsed(r)
  {
    if !r.ok then Threw(Error(AuthErrorMessage(r.text, r.body, "Signup failed"))) else Parsed(r)
  }

  function LoginOutcome(r: Response): (o: Outcome)
    ensures !r.ok ==> o == Threw(Error(AuthErrorMessage(r.text, r.body, "Login failed")))
    ensures r.ok ==> o == Parsed(r)
  {
    if !r.ok then Threw(Error(AuthErrorMessage(r.text, r.body, "Login failed"))) else Parsed(r)
  }

  /** No call returns a value for a response that is not OK, and on an OK response each
      returns exactly the parsed body. */
  lemma NotOkAlwaysThrows(r: Response)
    ensures !r.ok ==>
      CreateCartOutcome(r).Threw? && AddItemOutcome(r).Threw? && CreateOrderOutcome(r).Threw? &&
      PaymentOutcome(r).Threw? && SignupOutcome(r).Threw? && LoginOutcome(r).Threw?
    ensures r.ok ==>
      CreateCartOutcome(r) == AddItemOutcome(r) == CreateOrderOutcome(r) == PaymentOutcome(r) ==
      SignupOutcome(r) == LoginOutcome(r) == Parsed(r)
  {
  }

  /** A JSON error body with a non-empty `error` text reports that text, whatever its
      `message`; one with only a non-empty `message` text reports that. */
  lemma AuthErrorPrefersError(text: string, error: string, message: string, fallback: string)
    ensures error != "" ==>
      AuthErrorMessage(text, Some(JObject(map["error" := JString(error), "message" := JString(message)])), fallback) ==
      JString(error)
    ensures message != "" ==>
      AuthErrorMessage(text, Some(JObject(map["message" := JString(message)])), fallback) == JString(message)
    ensures AuthErrorMessage(text, Some(JObject(map["error" := JString(""), "message" := JString("")])), fallback) ==
      JString(fallback)
  {
    var both := JObject(map["error" := JString(error), "message" := JString(message)]);
    assert Member(both, "error") == Some(JString(error));
    assert Member(both, "message") == Some(JString(message));
    var only := JObject(map["message" := JString(message)]);
    assert Member(only, "error") == None;
    var empty := JObject(map["error" := JString(""), "message" := JString("")]);
    assert Member(empty, "error") == Some(JString("")) && Member(empty, "message") == Some(JString(""));
  }
}
