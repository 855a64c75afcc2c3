/** The shopping-bag panel of the storefront (`src/frontend/src/components/ShoppingCart.tsx`
    and `project/src/components/ShoppingCart.tsx`, which differ only in markup): the total
    of the bag, the requests its minus, plus and trash buttons send to the cart, and what
    the panel shows. The cart itself and what it does with a request are not part of this
    model. */
module ShoppingCartView {
  import opened ProductTypes

  /** The amount a line contributes: price times quantity. */
  function LineTotal(item: CartItem): real
  {
    item.product.price * item.quantity as real
  }

  /** `cartItems.reduce((total, item) => total + price * quantity, 0)`, a left fold. */
  function TotalPrice(items: seq<CartItem>): real
    decreases |items|
  {
    if items == [] then 0.0 else TotalPrice(items[..|items| - 1]) + LineTotal(items[|items| - 1])
  }

  /** The total of two bags laid end to end is the sum of their totals. */
  lemma {:induction false} TotalPriceAppend(a: seq<CartItem>, b: seq<CartItem>)
    ensures TotalPrice(a + b) == TotalPrice(a) + TotalPrice(b)
    decreases |b|
  {
    if b == [] {
      assert a + b == a;
    } else {
      var c, last := b[..|b| - 1], b[|b| - 1];
      assert a + b == (a + c) + [last];
      assert (a + b)[..|a + b| - 1] == a + c;
      TotalPriceAppend(a, c);
    }
  }

  /** So the order of the lines does not matter to the total: moving the first line to the
      end leaves it unchanged. */
  lemma TotalPriceRotate(x: CartItem, items: seq<CartItem>)
    ensures TotalPrice([x] + items) == TotalPrice(items + [x])
  {
    TotalPriceAppend([x], items);
    TotalPriceAppend(items, [x]);
    assert [x][..0] == [];
  }

  // ---------------------------------------------------------------------------------
  // The buttons of a line

  /** What a button asks of the cart: a new quantity for a line, or its removal. A line is
      named by its product ID, size and colour. */
  datatype Request =
    | UpdateQuantity(productId: string, size: string, color: string, quantity: int)
    | RemoveItem(productId: string, size: string, color: string)

  /** The line a request names. */
  function Key(r: Request): (string, string, string)
  {
    (r.productId, r.size, r.color)
  }

  function ItemKey(item: CartItem): (string, string, string)
  {
    (item.product.id, item.selectedSize, item.selectedColor)
  }

  /** Unclamped: on a single item it asks for quantity 0, not for removal. */
  function MinusClicked(item: CartItem): (r: Request)
    ensures r.UpdateQuantity? && Key(r) == ItemKey(item)
    ensures r.quantity == item.quantity - 1
  {
    UpdateQuantity(item.product.id, item.selectedSize, item.selectedColor, item.quantity - 1)
  }

  function PlusClicked(item: CartItem): (r: Request)
    ensures r.UpdateQuantity? && Key(r) == ItemKey(item)
    ensures r.quantity == item.quantity + 1
  {
    UpdateQuantity(item.product.id, item.selectedSize, item.selectedColor, item.quantity + 1)
  }

  function TrashClicked(item: CartItem): (r: Request)
    ensures r.RemoveItem? && Key(r) == ItemKey(item)
  {
    RemoveItem(item.product.id, item.selectedSize, item.selectedColor)
  }

  /** Plus undoes minus and minus undoes plus, once the cart has taken the new quantity. */
  lemma PlusMinusInverse(item: CartItem)
    ensures PlusClicked(item.(quantity := MinusClicked(item).quantity)) == UpdateQuantity(item.product.id, item.selectedSize, item.selectedColor, item.quantity)
    ensures MinusClicked(item.(quantity := PlusClicked(item).quantity)) == UpdateQuantity(item.product.id, item.selectedSize, item.selectedColor, item.quantity)
  {
  }

  // ---------------------------------------------------------------------------------
  // The panel

  /** A line as shown: its key, the quantity between the buttons and the line total. */
  datatype Line = Line(key: (string, string, string), quantity: int, amount: real)

  datatype Panel = Closed | EmptyBag | Bag(lines: seq<Line>, total: real)

  /** Nothing while closed; "Your bag is empty" exactly when there are no lines; otherwise
      one line per item, in order, and the total of the bag. */
  function ViewCart(items: seq<CartItem>, isOpen: bool): (p: Panel)
    ensures p.Closed? <==> !isOpen
    ensures p.EmptyBag? <==> isOpen && items == []
    ensures p.Bag? ==>
      |p.lines| == |items| && p.total == TotalPrice(items) &&
      forall i :: 0 <= i < |items| ==>
        p.lines[i] == Line(ItemKey(items[i]), items[i].quantity, LineTotal(items[i]))
  {
    if !isOpen then Closed
    else if |items| == 0 then EmptyBag
    else Bag(seq(|items|, i requires 0 <= i < |items| => Line(ItemKey(items[i]), items[i].quantity, LineTotal(items[i]))),
             TotalPrice(items))
  }
}
