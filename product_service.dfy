/** The catalogue service of `project/golang-backend/product-service/main.go`: a fixed list
    of eight products, read by a listing filter, a lookup by ID, a category list and a
    search, and "updated" by a stock check that writes back the flag it has just read. */
module ProductService {
  import opened Wrappers
  import opened Text
  import opened ProductTypes

  const Xs := "XS"

  /** The `products` slice the service starts with. */
  const Catalogue: seq<Product> := [
    Product("1", "Silk Baroque Shirt", "Tops", 1200.0,
            "https://images.pexels.com/photos/3622613/pexels-photo-3622613.jpeg",
            "Luxurious silk shirt with signature Versace Baroque pattern", 4.8, 124,
            [Xs, "S", "M", "L", "XL"], ["Black", "Gold", "White"], true),
    Product("2", "Gold Medusa Blazer", "Outerwear", 2500.0,
            "https://images.pexels.com/photos/3622614/pexels-photo-3622614.jpeg",
            "Statement blazer featuring iconic Medusa head emblem", 4.9, 89,
            [Xs, "S", "M", "L", "XL"], ["Black", "Navy", "Charcoal"], true),
    Product("3", "Versace Print T-Shirt", "Tops", 450.0,
            "https://images.pexels.com/photos/3622615/pexels-photo-3622615.jpeg",
            "Classic cotton t-shirt with Versace logo print", 4.6, 256,
            [Xs, "S", "M", "L", "XL", "XXL"], ["White", "Black", "Red", "Navy"], true),
    Product("4", "Tailored Silk Trousers", "Bottoms", 1800.0,
            "https://images.pexels.com/photos/3622616/pexels-photo-3622616.jpeg",
            "Elegant silk trousers with perfect drape", 4.7, 142,
            [Xs, "S", "M", "L", "XL"], ["Black", "White", "Beige"], true),
    Product("5", "Black Leather Jacket", "Outerwear", 3200.0,
            "https://images.pexels.com/photos/3622617/pexels-photo-3622617.jpeg",
            "Premium leather jacket with signature detailing", 4.9, 198,
            [Xs, "S", "M", "L", "XL"], ["Black", "Brown"], true),
    Product("6", "Gold Chain Dress", "Dresses", 2800.0,
            "https://images.pexels.com/photos/3622618/pexels-photo-3622618.jpeg",
            "Stunning dress with gold chain embellishments", 4.8, 167,
            [Xs, "S", "M", "L"], ["Black", "Gold", "Silver"], true),
    Product("7", "Premium Denim Jeans", "Bottoms", 950.0,
            "https://images.pexels.com/photos/3622619/pexels-photo-3622619.jpeg",
            "High-quality denim with Versace branding", 4.7, 203,
            ["24", "25", "26", "27", "28", "29", "30", "31", "32"], ["Dark Blue", "Light Blue", "Black"], true),
    Product("8", "Silk Evening Gown", "Dresses", 4500.0,
            "https://images.pexels.com/photos/3622620/pexels-photo-3622620.jpeg",
            "Breathtaking silk gown for special occasions", 5.0, 87,
            [Xs, "S", "M", "L"], ["Black", "Red", "White"], true)
  ]

  // ---------------------------------------------------------------------------------
  // getAllProducts

  /** A product is listed unless a category is given and differs, or a search is given
      and the name does not contain it, ignoring case. */
  predicate Listed(p: Product, category: string, search: string)
  {
    (category == "" || p.category == category) && (search == "" || ContainsFold(p.name, search))
  }

  function GetAllProducts(products: seq<Product>, category: string, search: string): seq<Product>
  {
    Filter(products, (p: Product) => Listed(p, category, search))
  }

  /** The listing holds exactly the listed products, in catalogue order. */
  lemma GetAllProductsSelects(products: seq<Product>, category: string, search: string)
    ensures forall p :: p in GetAllProducts(products, category, search) <==>
      p in products && Listed(p, category, search)
    ensures IsSubsequence(GetAllProducts(products, category, search), products)
  {
    forall p ensures p in GetAllProducts(products, category, search) <==> p in products && Listed(p, category, search) {
      FilterMembers(products, (p: Product) => Listed(p, category, search), p);
    }
    FilterIsSubsequence(products, (p: Product) => Listed(p, category, search));
  }

  /** Without a category and a search the whole catalogue is listed. */
  lemma GetAllProductsUnfiltered(products: seq<Product>)
    ensures GetAllProducts(products, "", "") == products
  {
    FilterAll(products, (p: Product) => Listed(p, "", ""));
  }

  // ---------------------------------------------------------------------------------
  // getProductByID

  /** The first product with the ID, or not found. */
  function GetProductById(products: seq<Product>, id: string): (r: Option<Product>)
    ensures r.None? <==> forall i :: 0 <= i < |products| ==> products[i].id != id
    ensures r.Some? ==>
      exists k :: (0 <= k < |products| && products[k] == r.value && r.value.id == id &&
                   forall j :: 0 <= j < k ==> products[j].id != id)
  {
    if products == [] then None
    else if products[0].id == id then Some(products[0])
    else
      var r := GetProductById(products[1..], id);
      assert forall i :: 0 < i < |products| ==> products[i] == products[1..][i - 1];
      r
  }

  // ---------------------------------------------------------------------------------
  // getCategories: `ProductTypes.Categories`

  /** The catalogue has four categories. */
  lemma CatalogueCategories()
    ensures Categories(Catalogue) == ["Tops", "Outerwear", "Bottoms", "Dresses"]
  {
    var t, o, b, d := "Tops", "Outerwear", "Bottoms", "Dresses";
    CatalogueCategoryList();
    assert t[0] != o[0] && t[0] != b[0] && t[0] != d[0] && o[0] != b[0] && o[0] != d[0] && b[0] != d[0];
    DedupOfCatalogueOrder(t, o, b, d);
  }

  lemma CatalogueCategoryList()
    ensures CategoryList(Catalogue) == ["Tops", "Outerwear", "Tops", "Bottoms", "Outerwear", "Dresses", "Bottoms", "Dresses"]
  {
  }

  lemma DedupOfCatalogueOrder(t: string, o: string, b: string, d: string)
    requires t != o && t != b && t != d && o != b && o != d && b != d
    ensures Dedup([t, o, t, b, o, d, b, d]) == [t, o, b, d]
  {
    DedupOfFirstFour(t, o, b);
    DedupSnoc([t, o, t, b], o);
    assert [t, o, t, b] + [o] == [t, o, t, b, o];
    DedupSnoc([t, o, t, b, o], d);
    assert [t, o, t, b, o] + [d] == [t, o, t, b, o, d];
    assert Dedup([t, o, t, b, o, d]) == [t, o, b, d];
    DedupSnoc([t, o, t, b, o, d], b);
    assert [t, o, t, b, o, d] + [b] == [t, o, t, b, o, d, b];
    DedupSnoc([t, o, t, b, o, d, b], d);
    assert [t, o, t, b, o, d, b] + [d] == [t, o, t, b, o, d, b, d];
  }

  lemma DedupOfFirstFour(t: string, o: string, b: string)
    requires t != o && t != b && o != b
    ensures Dedup([t, o, t, b]) == [t, o, b]
  {
    DedupSnoc([], t);
    assert [] + [t] == [t];
    DedupSnoc([t], o);
    assert [t] + [o] == [t, o];
    assert Dedup([t, o]) == [t, o];
    DedupSnoc([t, o], t);
    assert [t, o] + [t] == [t, o, t];
    DedupSnoc([t, o, t], b);
    assert [t, o, t] + [b] == [t, o, t, b];
  }

  // ---------------------------------------------------------------------------------
  // searchProducts

  const DefaultMinPrice := 0.0
  const DefaultMaxPrice := 100000.0

  /** A price bound: the parsed query value, or the default when it is absent or does not
      parse (`parsed` is `None` then). */
  function Bound(parsed: Option<real>, default: real): (b: real)
    ensures parsed.None? ==> b == default
    ensures parsed.Some? ==> b == parsed.value
  {
    if parsed.Some? then parsed.value else default
  }

  /** The name or the description contains the query, ignoring case, and the price lies
      between the bounds, both included. */
  predicate Matches(p: Product, q: string, min: real, max: real)
  {
    (ContainsFold(p.name, q) || ContainsFold(p.description, q)) && min <= p.price <= max
  }

  function SearchProducts(products: seq<Product>, q: string, minPrice: Option<real>, maxPrice: Option<real>): seq<Product>
  {
    var min, max := Bound(minPrice, DefaultMinPrice), Bound(maxPrice, DefaultMaxPrice);
    Filter(products, (p: Product) => Matches(p, q, min, max))
  }

  /** The results are exactly the matching products, in catalogue order. */
  lemma SearchProductsSelects(products: seq<Product>, q: string, minPrice: Option<real>, maxPrice: Option<real>)
    ensures var min, max := Bound(minPrice, DefaultMinPrice), Bound(maxPrice, DefaultMaxPrice);
      forall p :: p in SearchProducts(products, q, minPrice, maxPrice) <==> p in products && Matches(p, q, min, max)
    ensures IsSubsequence(SearchProducts(products, q, minPrice, maxPrice), products)
  {
    var min, max := Bound(minPrice, DefaultMinPrice), Bound(maxPrice, DefaultMaxPrice);
    forall p ensures p in SearchProducts(products, q, minPrice, maxPrice) <==> p in products && Matches(p, q, min, max) {
      FilterMembers(products, (p: Product) => Matches(p, q, min, max), p);
    }
    FilterIsSubsequence(products, (p: Product) => Matches(p, q, min, max));
  }

  /** An empty query with no bounds keeps every product priced from 0 to 100000, which
      is all of the catalogue. */
  lemma SearchWithoutFilters(products: seq<Product>)
    requires forall i :: 0 <= i < |products| ==> DefaultMinPrice <= products[i].price <= DefaultMaxPrice
    ensures SearchProducts(products, "", None, None) == products
  {
    forall i | 0 <= i < |products| ensures Matches(products[i], "", DefaultMinPrice, DefaultMaxPrice) {
      ContainsFoldEmpty(products[i].name);
    }
    FilterAll(products, (p: Product) => Matches(p, "", DefaultMinPrice, DefaultMaxPrice));
  }

  lemma CataloguePricesInDefaultRange()
    ensures forall i :: 0 <= i < |Catalogue| ==> DefaultMinPrice <= Catalogue[i].price <= DefaultMaxPrice
  {
  }

  // ---------------------------------------------------------------------------------
  // updateStock

  /** The catalogue as `updateStock` sees it: the one place the slice is written. */
  class Inventory {
    var products: seq<Product>

    constructor ()
      ensures products == Catalogue
    {
      products := Catalogue;
    }

    /** Succeeds when some product with the ID is in stock and the quantity is positive;
        the write sets the in-stock flag it has just found set, so nothing changes. */
    method UpdateStock(productId: string, quantity: int) returns (ok: bool)
      modifies this
      ensures products == old(products)
      ensures ok <==> quantity > 0 && exists i :: 0 <= i < |products| && products[i].id == productId && products[i].inStock
    {
      var i := 0;
      while i < |products|
        invariant 0 <= i <= |products|
        invariant products == old(products)
        invariant forall j :: 0 <= j < i ==> !(products[j].id == productId && products[j].inStock && quantity > 0)
      {
        var p := products[i];
        if p.id == productId {
          if p.inStock && quantity > 0 {
            products := products[i := products[i].(inStock := true)];
            assert products == old(products);
            return true;
          }
        }
        i := i + 1;
      }
      return false;
    }
  }
}
