/** The product detail view of the storefront (`src/frontend/src/components/ProductDetail.tsx`
    and `project/src/components/ProductDetail.tsx`, which differ only in markup): the
    quantity stepper, the size and colour choice and the add button. A size or colour is
    `None` where the script holds `undefined`, which is what `sizes[0]` of an empty list
    gives. */
module ProductDetailView {
  import opened Wrappers
  import opened ProductTypes

  /** `Math.max(1, q - 1)`: one less, but never below one. */
  function Decremented(q: int): (r: int)
    ensures r >= 1
    ensures q > 1 ==> r == q - 1
    ensures q <= 1 ==> r == 1
  {
    if q - 1 > 1 then q - 1 else 1
  }

  /** Minus after plus gives back any quantity the stepper can show. */
  lemma DecrementedUndoesPlus(q: int)
    requires q >= 1
    ensures Decremented(q + 1) == q
  {
  }

  /** The arguments `onAddToCart` receives. */
  datatype AddToCart = AddToCart(product: Product, quantity: int, size: Option<string>, color: Option<string>)

  class Detail {
    const product: Product
    var quantity: int
    var selectedSize: Option<string>
    var selectedColor: Option<string>

    /** The quantity is at least one, and the size and colour are entries of the product's
        own lists, present exactly when the list has an entry. */
    ghost predicate Valid()
      reads this
    {
      quantity >= 1 &&
      (selectedSize.Some? <==> product.sizes != []) &&
      (selectedSize.Some? ==> selectedSize.value in product.sizes) &&
      (selectedColor.Some? <==> product.colors != []) &&
      (selectedColor.Some? ==> selectedColor.value in product.colors)
    }

    /** Opening the view: quantity 1, the first size and the first colour. */
    constructor (p: Product)
      ensures Valid()
      ensures product == p && quantity == 1
      ensures selectedSize == First(p.sizes) && selectedColor == First(p.colors)
    {
      product := p;
      quantity := 1;
      selectedSize := First(p.sizes);
      selectedColor := First(p.colors);
    }

    method ClickMinus()
      requires Valid()
      modifies this
      ensures Valid()
      ensures quantity == Decremented(old(quantity))
      ensures selectedSize == old(selectedSize) && selectedColor == old(selectedColor)
    {
      quantity := if quantity - 1 > 1 then quantity - 1 else 1;
    }

    method ClickPlus()
      requires Valid()
      modifies this
      ensures Valid()
      ensures quantity == old(quantity) + 1
      ensures selectedSize == old(selectedSize) && selectedColor == old(selectedColor)
    {
      quantity := quantity + 1;
    }

    /** The size buttons are the product's sizes: pressing the `i`-th selects it. */
    method ClickSize(i: nat)
      requires Valid() && i < |product.sizes|
      modifies this
      ensures Valid()
      ensures selectedSize == Some(product.sizes[i])
      ensures quantity == old(quantity) && selectedColor == old(selectedColor)
    {
      selectedSize := Some(product.sizes[i]);
    }

    method ClickColor(i: nat)
      requires Valid() && i < |product.colors|
      modifies this
      ensures Valid()
      ensures selectedColor == Some(product.colors[i])
      ensures quantity == old(quantity) && selectedSize == old(selectedSize)
    {
      selectedColor := Some(product.colors[i]);
    }

    /** `handleAddToCart`: a disabled button (out of stock) does nothing; otherwise the
        callback gets the product with the current quantity, size and colour, and the
        quantity goes back to 1 while size and colour stay. */
    method ClickAdd() returns (call: Option<AddToCart>)
      requires Valid()
      modifies this
      ensures Valid()
      ensures !product.inStock ==>
        call.None? && quantity == old(quantity) &&
        selectedSize == old(selectedSize) && selectedColor == old(selectedColor)
      ensures product.inStock ==>
        call == Some(AddToCart(product, old(quantity), old(selectedSize), old(selectedColor))) &&
        quantity == 1 && selectedSize == old(selectedSize) && selectedColor == old(selectedColor)
    {
      if !product.inStock {
        return None;
      }
      call := Some(AddToCart(product, quantity, selectedSize, selectedColor));
      quantity := 1;
    }
  }
}
