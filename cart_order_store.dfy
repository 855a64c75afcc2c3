/** The in-memory cart and order service (`backend/cart-order-service/main.go`): carts keyed
    by cart ID, orders keyed by "ORD_<n>" with `orderCounter` numbering them. Prices are
    exact reals. The clock-derived cart ID is passed in, and a request body that fails to
    decode is passed in as the zero values Go leaves behind. */
module CartOrderStore {
  import opened Wrappers
  import opened Text

  datatype CartItem = CartItem(
    productId: string,
    productName: string,
    price: real,
    quantity: int,
    selectedSize: string,
    selectedColor: string)

  datatype Cart = Cart(id: string, userId: string, items: seq<CartItem>, total: real)

  datatype Order = Order(id: string, userId: string, items: seq<CartItem>, total: real, status: string)

  const Pending := "pending"

  function LineTotal(item: CartItem): real
  {
    item.price * item.quantity as real
  }

  /** Σ price × quantity over the items. */
  function Subtotal(items: seq<CartItem>): real
    decreases |items|
  {
    if items == [] then 0.0 else Subtotal(items[..|items| - 1]) + LineTotal(items[|items| - 1])
  }

  /** Adding one item adds its line total. */
  lemma SubtotalSnoc(items: seq<CartItem>, item: CartItem)
    ensures Subtotal(items + [item]) == Subtotal(items) + LineTotal(item)
  {
    assert (items + [item])[..|items|] == items;
  }

  lemma {:induction false} SubtotalAppend(a: seq<CartItem>, b: seq<CartItem>)
    ensures Subtotal(a + b) == Subtotal(a) + Subtotal(b)
    decreases |b|
  {
    if b != [] {
      var n := |b|;
      assert (a + b)[..|a + b| - 1] == a + b[..n - 1];
      SubtotalAppend(a, b[..n - 1]);
    } else {
      assert a + b == a;
    }
  }

  function OrderId(n: nat): string
  {
    "ORD_" + Decimal(n)
  }

  // ---------------------------------------------------------------------------------
  // Removing the first item of a product

  /** The index of the first item of the product, or `|items|` when there is none. */
  function FirstMatch(items: seq<CartItem>, productId: string): (k: nat)
    ensures k <= |items|
    ensures k < |items| ==> items[k].productId == productId
    ensures forall j :: 0 <= j < k ==> items[j].productId != productId
  {
    if items == [] then 0
    else if items[0].productId == productId then 0
    else 1 + FirstMatch(items[1..], productId)
  }

  /** The cart with the first item of the product taken out and its line total taken off
      the cart total; size and colour play no part. Without such an item, the cart. */
  function RemoveFirst(cart: Cart, productId: string): (r: Cart)
    ensures r.id == cart.id && r.userId == cart.userId
  {
    var k := FirstMatch(cart.items, productId);
    if k == |cart.items| then cart
    else cart.(total := cart.total - LineTotal(cart.items[k]),
               items := cart.items[..k] + cart.items[k + 1..])
  }

  /** Removing keeps the total equal to Σ price × quantity. */
  lemma RemoveFirstKeepsTotal(cart: Cart, productId: string)
    requires cart.total == Subtotal(cart.items)
    ensures RemoveFirst(cart, productId).total == Subtotal(RemoveFirst(cart, productId).items)
  {
    var k := FirstMatch(cart.items, productId);
    if k < |cart.items| {
      var items := cart.items;
      assert items == items[..k] + [items[k]] + items[k + 1..];
      SubtotalAppend(items[..k] + [items[k]], items[k + 1..]);
      SubtotalAppend(items[..k], [items[k]]);
      SubtotalAppend(items[..k], items[k + 1..]);
      assert Subtotal([items[k]]) == LineTotal(items[k]) by {
        assert [items[k]][..0] == [];
      }
    }
  }

  /** Exactly one item goes, the first of the product, when the cart has one, and the
      others keep their order; otherwise nothing changes. */
  lemma RemoveFirstTakesOne(cart: Cart, productId: string)
    ensures var r := RemoveFirst(cart, productId);
      (exists j :: 0 <= j < |cart.items| && cart.items[j].productId == productId) ==>
        |r.items| == |cart.items| - 1 &&
        multiset(cart.items) == multiset(r.items) + multiset{cart.items[FirstMatch(cart.items, productId)]}
    ensures var k := FirstMatch(cart.items, productId);
      k < |cart.items| ==> RemoveFirst(cart, productId).items == cart.items[..k] + cart.items[k + 1..]
    ensures (forall j :: 0 <= j < |cart.items| ==> cart.items[j].productId != productId) ==>
      RemoveFirst(cart, productId) == cart
  {
    var k := FirstMatch(cart.items, productId);
    if k < |cart.items| {
      var items := cart.items;
      assert items == items[..k] + [items[k]] + items[k + 1..];
      assert multiset(items) == multiset(items[..k]) + multiset{items[k]} + multiset(items[k + 1..]);
    }
  }

  // ---------------------------------------------------------------------------------
  // The store

  class Store {
    var carts: map<string, Cart>
    var orders: map<string, Order>
    var orderCounter: nat

    /** Carts sit under their own IDs with the right totals; orders sit under their own
        IDs, which are "ORD_<k>" for counter values already handed out. */
    ghost predicate Valid()
      reads this
    {
      (forall id :: id in carts ==> carts[id].id == id && carts[id].total == Subtotal(carts[id].items)) &&
      (forall id :: id in orders ==>
         orders[id].id == id && orders[id].total == Subtotal(orders[id].items) &&
         exists k: nat :: 1 <= k <= orderCounter && id == OrderId(k))
    }

    constructor ()
      ensures Valid() && carts == map[] && orders == map[] && orderCounter == 0
    {
      carts := map[];
      orders := map[];
      orderCounter := 0;
    }

    lemma NextOrderIdFresh()
      requires Valid()
      ensures OrderId(orderCounter + 1) !in orders
    {
      if OrderId(orderCounter + 1) in orders {
        var k: nat :| 1 <= k <= orderCounter && OrderId(orderCounter + 1) == OrderId(k);
        TaggedDecimalInjective("ORD_", orderCounter + 1, k);
      }
    }

    /** `createCart`: an empty cart of the user under the given ID. */
    method CreateCart(cartId: string, userId: string) returns (cart: Cart)
      requires Valid()
      modifies this
      ensures Valid()
      ensures cart == Cart(cartId, userId, [], 0.0)
      ensures carts == old(carts)[cartId := cart] && orders == old(orders) && orderCounter == old(orderCounter)
    {
      cart := Cart(cartId, userId, [], 0.0);
      carts := carts[cartId := cart];
    }

    /** `addItemToCart`: appends the item (no merging with an equal one) and adds its line
        total; a missing cart is not found and nothing changes. */
    method AddItemToCart(cartId: string, item: CartItem) returns (r: Option<Cart>)
      requires Valid()
      modifies this
      ensures Valid() && orders == old(orders) && orderCounter == old(orderCounter)
      ensures cartId !in old(carts) ==> r.None? && carts == old(carts)
      ensures cartId in old(carts) ==>
        var c := old(carts)[cartId];
        r == Some(c.(items := c.items + [item], total := c.total + LineTotal(item))) &&
        carts == old(carts)[cartId := r.value]
    {
      if cartId !in carts {
        return None;
      }
      var cart := carts[cartId];
      SubtotalSnoc(cart.items, item);
      cart := cart.(items := cart.items + [item], total := cart.total + LineTotal(item));
      assert cart.total == Subtotal(cart.items);
      carts := carts[cartId := cart];
      return Some(cart);
    }

    /** `removeItemFromCart`: takes out the first item of the product, if any. */
    method RemoveItemFromCart(cartId: string, productId: string) returns (r: Option<Cart>)
      requires Valid()
      modifies this
      ensures Valid() && orders == old(orders) && orderCounter == old(orderCounter)
      ensures cartId !in old(carts) ==> r.None? && carts == old(carts)
      ensures cartId in old(carts) ==>
        r == Some(RemoveFirst(old(carts)[cartId], productId)) && carts == old(carts)[cartId := r.value]
    {
      if cartId !in carts {
        return None;
      }
      var cart := carts[cartId];
      ghost var before := cart;
      var i := 0;
      while i < |cart.items|
        invariant 0 <= i <= |cart.items|
        invariant cart == before
        invariant forall j :: 0 <= j < i ==> cart.items[j].productId != productId
      {
        if cart.items[i].productId == productId {
          cart := cart.(total := cart.total - LineTotal(cart.items[i]),
                        items := cart.items[..i] + cart.items[i + 1..]);
          break;
        }
        i := i + 1;
      }
      assert cart == RemoveFirst(before, productId);
      RemoveFirstKeepsTotal(before, productId);
      carts := carts[cartId := cart];
      return Some(cart);
    }

    /** `getCart`: the cart, or not found. */
    method GetCart(cartId: string) returns (r: Option<Cart>)
      ensures r.Some? <==> cartId in carts
      ensures r.Some? ==> r.value == carts[cartId]
    {
      if cartId in carts {
        return Some(carts[cartId]);
      }
      return None;
    }

    /** `createOrder`: turns the cart into a pending order under the next "ORD_<n>" and
        deletes the cart; a missing cart changes nothing. */
    method CreateOrder(cartId: string) returns (r: Option<Order>)
      requires Valid()
      modifies this
      ensures Valid()
      ensures cartId !in old(carts) ==>
        r.None? && carts == old(carts) && orders == old(orders) && orderCounter == old(orderCounter)
      ensures cartId in old(carts) ==>
        var c := old(carts)[cartId];
        var id := OrderId(old(orderCounter) + 1);
        orderCounter == old(orderCounter) + 1 &&
        id !in old(orders) &&
        r == Some(Order(id, c.userId, c.items, c.total, Pending)) &&
        orders == old(orders)[id := r.value] &&
        carts == old(carts) - {cartId}
    {
      if cartId !in carts {
        return None;
      }
      var cart := carts[cartId];
      NextOrderIdFresh();
      orderCounter := orderCounter + 1;
      var orderId := OrderId(orderCounter);
      var order := Order(orderId, cart.userId, cart.items, cart.total, Pending);
      orders := orders[orderId := order];
      carts := carts - {cartId};
      return Some(order);
    }

    /** `getOrder`: the order, or not found. */
    method GetOrder(orderId: string) returns (r: Option<Order>)
      ensures r.Some? <==> orderId in orders
      ensures r.Some? ==> r.value == orders[orderId]
    {
      if orderId in orders {
        return Some(orders[orderId]);
      }
      return None;
    }

    /** `updateOrderStatus`: any status text is stored; nothing else changes. */
    method UpdateOrderStatus(orderId: string, status: string) returns (r: Option<Order>)
      requires Valid()
      modifies this
      ensures Valid() && carts == old(carts) && orderCounter == old(orderCounter)
      ensures orderId !in old(orders) ==> r.None? && orders == old(orders)
      ensures orderId in old(orders) ==>
        r == Some(old(orders)[orderId].(status := status)) && orders == old(orders)[orderId := r.value]
    {
      if orderId !in orders {
        return None;
      }
      var order := orders[orderId].(status := status);
      orders := orders[orderId := order];
      return Some(order);
    }

    /** `getUserOrders`: every order of the user, each once, in no particular order. */
    method GetUserOrders(userId: string) returns (r: seq<Order>)
      requires Valid()
      ensures forall i :: 0 <= i < |r| ==> r[i].userId == userId && r[i].id in orders && orders[r[i].id] == r[i]
      ensures forall id :: id in orders && orders[id].userId == userId ==> orders[id] in r
      ensures NoDuplicates(r)
    {
      var remaining := orders.Keys;
      r := [];
      while remaining != {}
        invariant remaining <= orders.Keys
        invariant forall i :: 0 <= i < |r| ==>
          r[i].userId == userId && r[i].id in orders && orders[r[i].id] == r[i] && r[i].id !in remaining
        invariant forall id :: id in orders && id !in remaining && orders[id].userId == userId ==> orders[id] in r
        invariant NoDuplicates(r)
        decreases |remaining|
      {
        var id :| id in remaining;
        if orders[id].userId == userId {
          r := r + [orders[id]];
        }
        remaining := remaining - {id};
      }
    }
  }
}
