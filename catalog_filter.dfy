/** The catalogue page of the storefront (`project/src/components/ProductCatalog.tsx`): the
    category buttons, the filter over the selected category and the search box, and what
    the page shows for the filtered list. The selected category is `null` (`None`) until a
    category button is pressed. */
module CatalogFilter {
  import opened Wrappers
  import opened Text
  import opened ProductTypes
  import ProductService

  /** `!selectedCategory`: no category, or the empty text. */
  predicate NoCategory(selected: Option<string>)
  {
    selected.None? || selected.value == ""
  }

  /** The page's test: the category matches unless none is selected, and the lower-cased
      name includes the lower-cased query (the empty query is included in every name). */
  predicate Shown(p: Product, selected: Option<string>, query: string)
  {
    (NoCategory(selected) || p.category == selected.value) && ContainsFold(p.name, query)
  }

  function FilteredProducts(products: seq<Product>, selected: Option<string>, query: string): seq<Product>
  {
    Filter(products, (p: Product) => Shown(p, selected, query))
  }

  /** The filtered list holds exactly the products passing the test, in catalogue order. */
  lemma FilteredSelects(products: seq<Product>, selected: Option<string>, query: string)
    ensures forall p :: p in FilteredProducts(products, selected, query) <==>
      p in products && (NoCategory(selected) || p.category == selected.value) && ContainsFold(p.name, query)
    ensures IsSubsequence(FilteredProducts(products, selected, query), products)
  {
    var keep := (p: Product) => Shown(p, selected, query);
    forall p ensures p in Filter(products, keep) <==> p in products && keep(p) {
      FilterMembers(products, keep, p);
    }
    FilterIsSubsequence(products, keep);
  }

  /** No category and an empty query show every product, in order. */
  lemma FilteredUnfiltered(products: seq<Product>)
    ensures FilteredProducts(products, None, "") == products
  {
    var keep := (p: Product) => Shown(p, None, "");
    forall i | 0 <= i < |products| ensures keep(products[i]) {
      ContainsFoldEmpty(products[i].name);
    }
    FilterAll(products, keep);
  }

  /** The page filters as the catalogue service's listing does, with no category standing
      for the empty category parameter. */
  lemma FilteredAsListed(products: seq<Product>, selected: Option<string>, query: string)
    ensures FilteredProducts(products, selected, query) ==
      ProductService.GetAllProducts(products, if selected.None? then "" else selected.value, query)
  {
    var category := if selected.None? then "" else selected.value;
    var f := (p: Product) => Shown(p, selected, query);
    var g := (p: Product) => ProductService.Listed(p, category, query);
    forall i | 0 <= i < |products| ensures f(products[i]) == g(products[i]) {
      ContainsFoldEmpty(products[i].name);
    }
    FilterSame(products, f, g);
  }

  // ---------------------------------------------------------------------------------
  // What the page shows

  /** One button of the category bar: "All", or a category; the selected one is dark. */
  datatype CategoryButton = AllButton(highlighted: bool) | CategoryButton(category: string, highlighted: bool)

  /** The grid with its "<n> products" line, or "No products found". */
  datatype Listing = NoProducts | Grid(count: nat, shown: seq<Product>)

  datatype Page = Page(buttons: seq<CategoryButton>, listing: Listing)

  function Buttons(products: seq<Product>, selected: Option<string>): (bs: seq<CategoryButton>)
    ensures |bs| == |Categories(products)| + 1
    ensures bs[0] == AllButton(selected.None?)
    ensures forall i :: 0 < i < |bs| ==>
      bs[i] == CategoryButton(Categories(products)[i - 1], selected == Some(Categories(products)[i - 1]))
  {
    var cs := Categories(products);
    [AllButton(selected.None?)] +
    seq(|cs|, i requires 0 <= i < |cs| => CategoryButton(cs[i], selected == Some(cs[i])))
  }

  /** "No products found" appears exactly when nothing passes the filter; otherwise the
      count is the number of cards and the cards are the filtered list. */
  function ViewPage(products: seq<Product>, selected: Option<string>, query: string): (page: Page)
    ensures page.listing.NoProducts? <==> FilteredProducts(products, selected, query) == []
    ensures page.listing.Grid? ==>
      page.listing.count == |page.listing.shown| > 0 && page.listing.shown == FilteredProducts(products, selected, query)
  {
    var shown := FilteredProducts(products, selected, query);
    Page(Buttons(products, selected), if |shown| == 0 then NoProducts else Grid(|shown|, shown))
  }

  /** At most one button is dark: "All" while nothing is selected, otherwise the button of
      the selected category, which exists whenever that category is a product's. */
  lemma ViewPageHighlight(products: seq<Product>, selected: Option<string>, query: string)
    ensures var bs := ViewPage(products, selected, query).buttons;
      (forall i, j :: 0 <= i < j < |bs| && bs[i].highlighted ==> !bs[j].highlighted) &&
      (selected.None? ==> bs[0].highlighted) &&
      (selected.Some? && (exists k :: 0 <= k < |products| && products[k].category == selected.value) ==>
        exists i :: 0 < i < |bs| && bs[i] == CategoryButton(selected.value, true))
  {
    var cs := Categories(products);
    var bs := ViewPage(products, selected, query).buttons;
    CategoriesDistinct(products);
    forall i, j | 0 <= i < j < |bs| && bs[i].highlighted ensures !bs[j].highlighted {
      if i > 0 {
        assert cs[i - 1] != cs[j - 1];
      }
    }
    if selected.Some? && (exists k :: 0 <= k < |products| && products[k].category == selected.value) {
      assert selected.value in cs;
      var i :| 0 <= i < |cs| && cs[i] == selected.value;
      assert bs[i + 1] == CategoryButton(selected.value, true);
    }
  }
}
