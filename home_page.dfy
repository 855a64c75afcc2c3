/** The storefront's home page (`src/frontend/src/components/Home.tsx`): the two add-to-cart
    handlers and the checkout, which creates a cart on the cart service, posts every item of
    the bag to it, turns it into an order and pays for the order, one awaited call after
    the other. The cart hook is seen through the calls the page makes on it
    (`addToCart`, `clearCart`); the services are seen through a `server` function giving
    the reply to the latest call of a trace, so a reply may depend on everything sent
    before. */
module HomePage {
  import opened Wrappers
  import opened ProductTypes
  import opened ApiClient
  import ProductDetailView
  import CartOrderStore
  import ShoppingCartView

  /** The remote calls of a checkout, with what each sends. */
  datatype Call =
    | CreateCartCall(body: Json)
    | AddItemCall(cartId: string, item: CartOrderStore.CartItem)
    | CreateOrderCall(cartId: string)
    | PaymentCall(payment: PaymentBody)

  /** What an awaited call yields: the error it throws, or the response's `id` and `total`
      (the cart's ID, the order's ID and total; the page reads nothing else). */
  datatype Reply = Failed(error: Thrown) | Succeeded(id: string, total: real)

  /** A call on the cart hook. */
  datatype HookCall =
    | AddToCartHook(product: Product, quantity: int, size: Option<string>, color: Option<string>)
    | ClearCartHook

  // ---------------------------------------------------------------------------------
  // The user the cart is created for

  const GuestId := "guest"

  /** The argument `createCart` receives (`None` is `undefined`), from the stored `user`
      entry and what `JSON.parse` makes of it (`None`: it throws). Nothing stored, or an
      empty entry, gives "guest"; an entry that does not parse throws before any call; a
      parsed user gives its `id`, and a falsy parsed value "guest" again. */
  function CartOwner(storedUser: Option<string>, parsedUser: Option<Json>): (r: Result<Option<Json>, Thrown>)
    ensures (storedUser.None? || storedUser == Some("")) ==> r == Ok(Some(JString(GuestId)))
    ensures storedUser.Some? && storedUser.value != "" && parsedUser.None? ==> r == Err(SyntaxError)
    ensures storedUser.Some? && storedUser.value != "" && parsedUser.Some? ==>
      r.Ok? && (Truthy(parsedUser) ==> r.value == Member(parsedUser.value, "id")) &&
      (!Truthy(parsedUser) ==> r.value == Some(JString(GuestId)))
  {
    if storedUser.None? || storedUser.value == "" then Ok(Some(JString(GuestId)))
    else if parsedUser.None? then Err(SyntaxError)
    else if !Truthy(parsedUser) then Ok(Some(JString(GuestId)))
    else Ok(Member(parsedUser.value, "id"))
  }

  /** A stored user with an ID is the cart's owner; a stored user without one falls to the
      client's default "user123"; without a stored user the cart is the guest's. */
  lemma CartOwnerUserId(storedUser: string, members: map<string, Json>)
    requires storedUser != ""
    ensures "id" in members ==>
      CartOwner(Some(storedUser), Some(JObject(members))) == Ok(Some(members["id"]))
    ensures "id" !in members ==>
      CreateCartBody(CartOwner(Some(storedUser), Some(JObject(members))).value) ==
      CreateCartBody(Some(JString(DefaultUserId)))
    ensures CreateCartBody(CartOwner(None, None).value) == JObject(map["userId" := JString(GuestId)])
  {
  }

  // ---------------------------------------------------------------------------------
  // The calls of a checkout

  /** The full trace of a checkout for a cart owner and a bag, given the cart ID and the
      order's ID and total the services hand back: create the cart, add each item in bag
      order, create the order, pay the order's total. */
  function Planned(owner: Option<Json>, items: seq<CartItem>, cartId: string, orderId: string, total: real,
                   details: PaymentDetails): (p: seq<Call>)
    ensures |p| == |items| + 3
    ensures p[0] == CreateCartCall(CreateCartBody(owner))
    ensures forall j :: 0 <= j < |items| ==> p[j + 1] == AddItemCall(cartId, AddItemBody(items[j]))
    ensures p[|items| + 1] == CreateOrderCall(cartId)
    ensures p[|items| + 2] == PaymentCall(PaymentBodyOf(details, total, orderId))
  {
    [CreateCartCall(CreateCartBody(owner))] +
    seq(|items|, j requires 0 <= j < |items| => AddItemCall(cartId, AddItemBody(items[j]))) +
    [CreateOrderCall(cartId), PaymentCall(PaymentBodyOf(details, total, orderId))]
  }

  /** There is no guard for an empty bag: it still creates a cart, an order and a payment. */
  lemma PlannedEmptyBag(owner: Option<Json>, cartId: string, orderId: string, total: real, details: PaymentDetails)
    ensures Planned(owner, [], cartId, orderId, total, details) ==
      [CreateCartCall(CreateCartBody(owner)), CreateOrderCall(cartId), PaymentCall(PaymentBodyOf(details, total, orderId))]
  {
    var p := Planned(owner, [], cartId, orderId, total, details);
    assert p[0] == CreateCartCall(CreateCartBody(owner));
  }

  /** The items a complete trace posts are the bag's bodies in bag order, so the cart the
      service builds from them totals what the bag showed. */
  lemma PlannedPostsBag(owner: Option<Json>, items: seq<CartItem>, cartId: string, orderId: string, total: real,
                        details: PaymentDetails)
    ensures var p := Planned(owner, items, cartId, orderId, total, details);
      forall j :: 0 <= j < |items| ==> p[j + 1].AddItemCall? && p[j + 1].item == ItemBodies(items)[j]
    ensures CartOrderStore.Subtotal(ItemBodies(items)) == ShoppingCartView.TotalPrice(items)
  {
    PlannedPostsBodies(owner, items, cartId, orderId, total, details);
    var bodies := ItemBodies(items);
    assert CartOrderStore.Subtotal(bodies) == ShoppingCartView.TotalPrice(items) by {
      ItemBodiesTotal(items);
    }
  }

  lemma PlannedPostsBodies(owner: Option<Json>, items: seq<CartItem>, cartId: string, orderId: string, total: real,
                           details: PaymentDetails)
    ensures var p := Planned(owner, items, cartId, orderId, total, details);
      forall j :: 0 <= j < |items| ==> p[j + 1].AddItemCall? && p[j + 1].item == ItemBodies(items)[j]
  {
    var p := Planned(owner, items, cartId, orderId, total, details);
    var bodies := ItemBodies(items);
    forall j | 0 <= j < |items| ensures p[j + 1].AddItemCall? && p[j + 1].item == bodies[j] {
      assert p[j + 1] == AddItemCall(cartId, AddItemBody(items[j]));
    }
  }

  /** The reply to the first `k` calls of a trace. For a trace shorter than `k` the value
      is a placeholder that is never observed: `FollowsPlan` reads it only for the IDs and
      total of calls that were not made, whose planned entries lie beyond the trace. It
      stands for no error the page throws. */
  function ReplyTo(server: seq<Call> -> Reply, calls: seq<Call>, k: nat): Reply
  {
    if 1 <= k <= |calls| then server(calls[..k]) else Failed(TypeError)
  }

  function IdOf(r: Reply): string
  {
    if r.Succeeded? then r.id else ""
  }

  function TotalOf(r: Reply): real
  {
    if r.Succeeded? then r.total else 0.0
  }

  /** The calls are a leading part of the planned trace, with the cart ID the first reply
      gave and the order the reply to the order call gave, and every call but the last
      was answered with success. */
  ghost predicate FollowsPlan(owner: Option<Json>, items: seq<CartItem>, details: PaymentDetails,
                              server: seq<Call> -> Reply, calls: seq<Call>)
  {
    var order := ReplyTo(server, calls, |items| + 2);
    calls != [] &&
    calls <= Planned(owner, items, IdOf(ReplyTo(server, calls, 1)), IdOf(order), TotalOf(order), details) &&
    forall k :: 1 <= k < |calls| ==> server(calls[..k]).Succeeded?
  }

  /** A trace whose elements agree with a longer one, index by index, is a prefix of it. */
  lemma PrefixByIndex(calls: seq<Call>, p: seq<Call>)
    requires |calls| <= |p|
    requires forall k :: 0 <= k < |calls| ==> calls[k] == p[k]
    ensures calls <= p
  {
    assert calls == p[..|calls|];
  }

  /** Sending one more call keeps the replies to the calls before it, so if those all
      succeeded, every call but the new one was answered with success. */
  lemma AnsweredAfterAppend(server: seq<Call> -> Reply, prev: seq<Call>, c: Call)
    requires forall k :: 1 <= k <= |prev| ==> server(prev[..k]).Succeeded?
    ensures forall k :: 1 <= k < |prev + [c]| ==> server((prev + [c])[..k]).Succeeded?
  {
    forall k | 1 <= k < |prev + [c]| ensures (prev + [c])[..k] == prev[..k] {
    }
  }

  /** A run that made the planned calls so far, with the cart ID of the first reply and,
      once it paid, the order of the order reply, follows the plan. */
  lemma FollowsPlanByIndex(owner: Option<Json>, items: seq<CartItem>, details: PaymentDetails,
                           server: seq<Call> -> Reply, calls: seq<Call>,
                           cartId: string, orderId: string, total: real)
    requires 1 <= |calls| <= |items| + 3
    requires forall k :: 0 <= k < |calls| ==> calls[k] == Planned(owner, items, cartId, orderId, total, details)[k]
    requires cartId == IdOf(server([calls[0]]))
    requires |calls| == |items| + 3 ==>
      orderId == IdOf(server(calls[..|items| + 2])) && total == TotalOf(server(calls[..|items| + 2]))
    requires forall k :: 1 <= k < |calls| ==> server(calls[..k]).Succeeded?
    ensures FollowsPlan(owner, items, details, server, calls)
  {
    assert calls[..1] == [calls[0]];
    var order := ReplyTo(server, calls, |items| + 2);
    var p := Planned(owner, items, cartId, orderId, total, details);
    var q := Planned(owner, items, cartId, IdOf(order), TotalOf(order), details);
    forall k | 0 <= k < |calls| ensures calls[k] == q[k] {
      if k == |items| + 2 {
        assert order == server(calls[..|items| + 2]);
      }
    }
    PrefixByIndex(calls, q);
  }

  /** The loop of `handleCheckout` over the bag: after the cart call `calls0`, one
      `addItemToCart` per item in bag order, stopping at the first that throws. */
  method PostItems(items: seq<CartItem>, cartId: string, server: seq<Call> -> Reply, calls0: seq<Call>)
    returns (calls: seq<Call>, error: Option<Thrown>)
    requires |calls0| == 1 && server(calls0).Succeeded?
    ensures 1 <= |calls| <= |items| + 1 && calls[0] == calls0[0]
    ensures forall j :: 0 <= j < |calls| - 1 ==> calls[j + 1] == AddItemCall(cartId, AddItemBody(items[j]))
    ensures forall k :: 1 <= k < |calls| ==> server(calls[..k]).Succeeded?
    ensures error.None? ==> |calls| == |items| + 1 && server(calls).Succeeded?
    ensures error.Some? ==> server(calls).Failed? && error.value == server(calls).error
  {
    calls := calls0;
    assert calls[..1] == calls;
    var i := 0;
    while i < |items|
      invariant 0 <= i <= |items|
      invariant |calls| == i + 1 && calls[0] == calls0[0]
      invariant forall j :: 0 <= j < i ==> calls[j + 1] == AddItemCall(cartId, AddItemBody(items[j]))
      invariant forall k :: 1 <= k <= |calls| ==> server(calls[..k]).Succeeded?
    {
      AnsweredAfterAppend(server, calls, AddItemCall(cartId, AddItemBody(items[i])));
      calls := calls + [AddItemCall(cartId, AddItemBody(items[i]))];
      var reply := server(calls);
      if reply.Failed? {
        return calls, Some(reply.error);
      }
      assert calls[..|calls|] == calls;
      i := i + 1;
    }
    assert calls[..|calls|] == calls;
    return calls, None;
  }

  /** The end of `handleCheckout` once the cart holds the bag: create the order, then pay
      the total its reply names. */
  method OrderAndPay(details: PaymentDetails, items: seq<CartItem>, owner: Option<Json>,
                     server: seq<Call> -> Reply, calls0: seq<Call>, cartId: string)
    returns (calls: seq<Call>, error: Option<Thrown>)
    requires |calls0| == |items| + 1 && calls0[0] == CreateCartCall(CreateCartBody(owner))
    requires cartId == IdOf(server([calls0[0]]))
    requires forall j :: 0 <= j < |items| ==> calls0[j + 1] == AddItemCall(cartId, AddItemBody(items[j]))
    requires forall k :: 1 <= k <= |calls0| ==> server(calls0[..k]).Succeeded?
    ensures FollowsPlan(owner, items, details, server, calls)
    ensures error.None? <==> |calls| == |items| + 3 && server(calls).Succeeded?
    ensures error.Some? ==> server(calls).Failed? && error.value == server(calls).error
  {
    AnsweredAfterAppend(server, calls0, CreateOrderCall(cartId));
    calls := calls0 + [CreateOrderCall(cartId)];
    var order := server(calls);
    if order.Failed? {
      FollowsPlanByIndex(owner, items, details, server, calls, cartId, "", 0.0);
      return calls, Some(order.error);
    }
    assert calls[..|calls|] == calls;
    ghost var orderCalls := calls;
    AnsweredAfterAppend(server, calls, PaymentCall(PaymentBodyOf(details, order.total, order.id)));
    calls := calls + [PaymentCall(PaymentBodyOf(details, order.total, order.id))];
    assert calls[..|items| + 2] == orderCalls;
    FollowsPlanByIndex(owner, items, details, server, calls, cartId, order.id, order.total);
    var reply := server(calls);
    if reply.Failed? {
      return calls, Some(reply.error);
    }
    return calls, None;
  }

  /** The remote part of `handleCheckout`: each call is awaited, and the first that throws
      ends the run with its error. The checkout succeeds exactly when all `|items| + 3`
      calls succeed; the payment is for the total the order reply names. */
  method RemoteCheckout(details: PaymentDetails, items: seq<CartItem>, owner: Option<Json>,
                        server: seq<Call> -> Reply)
    returns (calls: seq<Call>, error: Option<Thrown>)
    ensures FollowsPlan(owner, items, details, server, calls)
    ensures error.None? <==> |calls| == |items| + 3 && server(calls).Succeeded?
    ensures error.Some? ==> server(calls).Failed? && error.value == server(calls).error
  {
    var c0 := CreateCartCall(CreateCartBody(owner));
    calls := [c0];
    var reply := server(calls);
    if reply.Failed? {
      FollowsPlanByIndex(owner, items, details, server, calls, IdOf(reply), "", 0.0);
      return calls, Some(reply.error);
    }
    var cartId := reply.id;
    calls, error := PostItems(items, cartId, server, calls);
    if error.Some? {
      FollowsPlanByIndex(owner, items, details, server, calls, cartId, "", 0.0);
      return;
    }
    assert calls[..|calls|] == calls;
    calls, error := OrderAndPay(details, items, owner, server, calls, cartId);
  }

  class Home {
    var selectedProduct: Option<Product>
    var cartOpen: bool
    var checkoutOpen: bool
    var orderComplete: bool
    /** The calls made on the cart hook, oldest first. */
    var hookLog: seq<HookCall>

    constructor ()
      ensures selectedProduct.None? && !cartOpen && !checkoutOpen && !orderComplete && hookLog == []
    {
      selectedProduct := None;
      cartOpen := false;
      checkoutOpen := false;
      orderComplete := false;
      hookLog := [];
    }

    /** "Add" on a catalogue card: one of the product, in its first size and first colour. */
    method HandleAddToCart(product: Product)
      modifies this
      ensures hookLog == old(hookLog) + [AddToCartHook(product, 1, First(product.sizes), First(product.colors))]
      ensures selectedProduct == old(selectedProduct) && cartOpen == old(cartOpen)
      ensures checkoutOpen == old(checkoutOpen) && orderComplete == old(orderComplete)
    {
      hookLog := hookLog + [AddToCartHook(product, 1, First(product.sizes), First(product.colors))];
    }

    /** Adding from the detail view passes its choice on, closes the view and opens the
        bag. */
    method HandleProductDetailAddToCart(add: ProductDetailView.AddToCart)
      modifies this
      ensures hookLog == old(hookLog) + [AddToCartHook(add.product, add.quantity, add.size, add.color)]
      ensures selectedProduct.None? && cartOpen
      ensures checkoutOpen == old(checkoutOpen) && orderComplete == old(orderComplete)
    {
      hookLog := hookLog + [AddToCartHook(add.product, add.quantity, add.size, add.color)];
      selectedProduct := None;
      cartOpen := true;
    }

    /** `handleCheckout`: a stored user that does not parse fails before any call. A
        checkout whose every call succeeds closes the modal, shows the success overlay and
        clears the bag; one that fails changes nothing and hands the error on. */
    method HandleCheckout(details: PaymentDetails, cartItems: seq<CartItem>, storedUser: Option<string>,
                          parsedUser: Option<Json>, server: seq<Call> -> Reply)
      returns (calls: seq<Call>, error: Option<Thrown>)
      modifies this
      ensures CartOwner(storedUser, parsedUser).Err? ==>
        calls == [] && error == Some(CartOwner(storedUser, parsedUser).error)
      ensures CartOwner(storedUser, parsedUser).Ok? ==>
        FollowsPlan(CartOwner(storedUser, parsedUser).value, cartItems, details, server, calls) &&
        (error.None? <==> |calls| == |cartItems| + 3 && server(calls).Succeeded?) &&
        (error.Some? ==> server(calls).Failed? && error.value == server(calls).error)
      ensures error.None? ==> !checkoutOpen && orderComplete && hookLog == old(hookLog) + [ClearCartHook]
      ensures error.Some? ==>
        checkoutOpen == old(checkoutOpen) && orderComplete == old(orderComplete) && hookLog == old(hookLog)
      ensures selectedProduct == old(selectedProduct) && cartOpen == old(cartOpen)
    {
      var owner := CartOwner(storedUser, parsedUser);
      if owner.Err? {
        return [], Some(owner.error);
      }
      calls, error := RemoteCheckout(details, cartItems, owner.value, server);
      if error.None? {
        checkoutOpen := false;
        orderComplete := true;
        hookLog := hookLog + [ClearCartHook];
      }
    }
  }
}
