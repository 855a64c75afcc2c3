/** The product record the product service serves and the storefront displays
    (`project/src/types/index.ts`, and the `Product` struct of
    `project/golang-backend/product-service/main.go`, which has the same JSON shape), and
    the storefront's cart line and payment details. Prices are exact reals; a quantity is an integer. */
module ProductTypes {
  import opened Wrappers
  import opened Text

  datatype Product = Product(
    id: string,
    name: string,
    category: string,
    price: real,
    image: string,
    description: string,
    rating: real,
    reviews: int,
    sizes: seq<string>,
    colors: seq<string>,
    inStock: bool)

  /** A line of the storefront cart: a product with the chosen quantity, size and colour. */
  datatype CartItem = CartItem(product: Product, quantity: int, selectedSize: string, selectedColor: string)

  /** The card fields the checkout form collects and the client sends for payment. */
  datatype PaymentDetails = PaymentDetails(cardNumber: string, cardHolder: string, expiryDate: string, cvv: string)

  /** `xs[0]`, which is `undefined` in a script when the list is empty. */
  function First<T>(xs: seq<T>): (r: Option<T>)
    ensures r.Some? <==> xs != []
    ensures r.Some? ==> r.value == xs[0]
  {
    if xs == [] then None else Some(xs[0])
  }

  /** The category of each product, in catalogue order. */
  function CategoryList(products: seq<Product>): (cs: seq<string>)
    ensures |cs| == |products|
    ensures forall i :: 0 <= i < |products| ==> cs[i] == products[i].category
  {
    seq(|products|, i requires 0 <= i < |products| => products[i].category)
  }

  /** The distinct categories in order of first appearance: the seen-map loop of the
      product service and the `Set` of the catalogue page compute the same list. */
  function Categories(products: seq<Product>): seq<string>
  {
    Dedup(CategoryList(products))
  }

  /** Each category of the catalogue once, in the order it first appears. */
  lemma CategoriesDistinct(products: seq<Product>)
    ensures forall c :: c in Categories(products) <==> exists i :: 0 <= i < |products| && products[i].category == c
    ensures NoDuplicates(Categories(products))
    ensures var cs, ds := CategoryList(products), Categories(products);
      forall i, j | 0 <= i < j < |ds| :: ds[i] in cs && ds[j] in cs && FirstIndex(cs, ds[i]) < FirstIndex(cs, ds[j])
  {
    var cs := CategoryList(products);
    DedupMembers(cs);
    DedupNoDuplicates(cs);
    DedupFirstAppearanceOrder(cs);
    forall c ensures c in cs <==> exists i :: 0 <= i < |products| && products[i].category == c {
      if c in cs {
        var i :| 0 <= i < |cs| && cs[i] == c;
        assert products[i].category == c;
      }
    }
  }
}
