/** The SQL text and argument list that `GetProducts` and `SearchProducts` of
    `src/product-service/db/db.go` build before querying: the query grows by `+=`, the
    arguments by `append`, and `argCount` numbers the `$n` placeholders. Running the
    query and scanning the rows are not modelled. */
module ProductQueries {
  import opened Text

  const SelectProducts := "SELECT id, name, category, price, image, description, rating, reviews, sizes, colors, in_stock, created_at, updated_at FROM products WHERE true"
  const NewestFirst := " ORDER BY created_at DESC"

  /** A piece of query text, or the placeholder `$n`. */
  datatype Fragment = Text(text: string) | Param(n: nat)

  function RenderFragment(f: Fragment): string
  {
    match f
    case Text(t) => t
    case Param(n) => "$" + Decimal(n)
  }

  function Render(fs: seq<Fragment>): string
    decreases |fs|
  {
    if fs == [] then "" else Render(fs[..|fs| - 1]) + RenderFragment(fs[|fs| - 1])
  }

  lemma {:induction false} RenderAppend(a: seq<Fragment>, b: seq<Fragment>)
    ensures Render(a + b) == Render(a) + Render(b)
    decreases |b|
  {
    if b == [] {
      assert a + b == a;
    } else {
      var c, last := b[..|b| - 1], b[|b| - 1];
      assert a + b == (a + c) + [last];
      RenderSnoc(a + c, last);
      RenderAppend(a, c);
      AppendAssoc(Render(a), Render(c), RenderFragment(last));
    }
  }

  /** The placeholder numbers, in the order they occur. */
  function Placeholders(fs: seq<Fragment>): seq<nat>
    decreases |fs|
  {
    if fs == [] then []
    else Placeholders(fs[..|fs| - 1]) + (if fs[|fs| - 1].Param? then [fs[|fs| - 1].n] else [])
  }

  lemma {:induction false} PlaceholdersAppend(a: seq<Fragment>, b: seq<Fragment>)
    ensures Placeholders(a + b) == Placeholders(a) + Placeholders(b)
    decreases |b|
  {
    if b == [] {
      assert a + b == a;
    } else {
      var c, last := b[..|b| - 1], b[|b| - 1];
      assert a + b == (a + c) + [last];
      assert (a + b)[..|a + b| - 1] == a + c;
      PlaceholdersAppend(a, c);
      AppendAssoc(Placeholders(a), Placeholders(c), if last.Param? then [last.n] else []);
    }
  }

  /** The numbers `k`, `k + 1`, `k + 2`, ... in order. */
  predicate CountsFrom(ps: seq<nat>, k: nat)
  {
    forall i :: 0 <= i < |ps| ==> ps[i] == k + i
  }

  lemma CountsFromAppend(a: seq<nat>, b: seq<nat>, k: nat)
    requires CountsFrom(a, k) && CountsFrom(b, k + |a|)
    ensures CountsFrom(a + b, k)
  {
    forall i | 0 <= i < |a + b| ensures (a + b)[i] == k + i {
      if i >= |a| {
        assert (a + b)[i] == b[i - |a|];
      }
    }
  }

  function Like(s: string): string
  {
    "%" + s + "%"
  }

  // ---------------------------------------------------------------------------------
  // The filters, one block of fragments each, numbered from `k`

  function CategoryFilter(k: nat): seq<Fragment>
  {
    [Text(" AND category = "), Param(k)]
  }

  function NameOrDescriptionFilter(k: nat): seq<Fragment>
  {
    [Text(" AND (name ILIKE "), Param(k), Text(" OR description ILIKE "), Param(k + 1), Text(")")]
  }

  function MinPriceFilter(k: nat): seq<Fragment>
  {
    [Text(" AND price >= "), Param(k)]
  }

  function MaxPriceFilter(k: nat): seq<Fragment>
  {
    [Text(" AND price <= "), Param(k)]
  }

  /** The query `GetProducts` sends, as fragments: the category filter when a category is
      given, then the name-or-description filter when a search is given. */
  function ProductsQuery(category: string, search: string): seq<Fragment>
  {
    [Text(SelectProducts)] + CategoryPart(category) + SearchPart(search, 1 + |CategoryArgs(category)|) +
    [Text(NewestFirst)]
  }

  function CategoryPart(category: string): (fs: seq<Fragment>)
    ensures |fs| == if category != "" then 2 else 0
  {
    if category != "" then CategoryFilter(1) else []
  }

  function SearchPart(search: string, k: nat): (fs: seq<Fragment>)
    ensures |fs| == if search != "" then 5 else 0
  {
    if search != "" then NameOrDescriptionFilter(k) else []
  }

  function ProductsArgs(category: string, search: string): seq<string>
  {
    CategoryArgs(category) + SearchArgsPart(search)
  }

  function CategoryArgs(category: string): (args: seq<string>)
    ensures |args| == if category != "" then 1 else 0
  {
    if category != "" then [category] else []
  }

  function SearchArgsPart(search: string): (args: seq<string>)
    ensures |args| == if search != "" then 2 else 0
  {
    if search != "" then [Like(search), Like(search)] else []
  }

  /** `GetProducts`' query building. */
  method GetProductsQuery(category: string, search: string) returns (query: string, args: seq<string>)
    ensures query == Render(ProductsQuery(category, search))
    ensures args == ProductsArgs(category, search)
  {
    query := SelectProducts;
    args := [];
    var argCount := 1;
    RenderOne(Text(SelectProducts));
    if category != "" {
      var clause := " AND category = $" + Decimal(argCount);
      RenderFilterCategory(argCount);
      AppendRendered([Text(SelectProducts)], CategoryFilter(argCount), query, clause);
      query := query + clause;
      args := args + [category];
      argCount := argCount + 1;
    } else {
      assert [Text(SelectProducts)] + CategoryPart(category) == [Text(SelectProducts)];
    }
    query, args, argCount := AddNameOrDescription(query, args, argCount, search,
                                                  [Text(SelectProducts)] + CategoryPart(category));
    AppendText([Text(SelectProducts)] + CategoryPart(category) + SearchPart(search, 1 + |CategoryArgs(category)|),
               query, NewestFirst);
    query := query + NewestFirst;
  }

  /** The name-or-description filter both builders share, numbered from `argCount`. */
  method AddNameOrDescription(query0: string, args0: seq<string>, argCount0: nat, search: string,
                              ghost fs: seq<Fragment>)
    returns (query: string, args: seq<string>, argCount: nat)
    requires query0 == Render(fs)
    ensures argCount == argCount0 + |SearchArgsPart(search)|
    ensures query == Render(fs + SearchPart(search, argCount0))
    ensures args == args0 + SearchArgsPart(search)
  {
    query, args, argCount := query0, args0, argCount0;
    if search != "" {
      var clause := " AND (name ILIKE $" + Decimal(argCount) + " OR description ILIKE $" + Decimal(argCount + 1) + ")";
      RenderFilterNameOrDescription(argCount);
      AppendRendered(fs, NameOrDescriptionFilter(argCount), query, clause);
      query := query + clause;
      args := args + [Like(search), Like(search)];
      argCount := argCount + 2;
    } else {
      assert fs + SearchPart(search, argCount) == fs;
      assert args + SearchArgsPart(search) == args;
    }
  }

  function SearchQuery(q: string, minPrice: string, maxPrice: string): seq<Fragment>
  {
    var k1 := 1 + |SearchArgsPart(q)|;
    var k2 := k1 + |PriceArg(minPrice)|;
    [Text(SelectProducts)] + SearchPart(q, 1) + MinPricePart(minPrice, k1) + MaxPricePart(maxPrice, k2) +
    [Text(NewestFirst)]
  }

  function MinPricePart(minPrice: string, k: nat): (fs: seq<Fragment>)
    ensures |fs| == if minPrice != "" then 2 else 0
  {
    if minPrice != "" then MinPriceFilter(k) else []
  }

  function MaxPricePart(maxPrice: string, k: nat): (fs: seq<Fragment>)
    ensures |fs| == if maxPrice != "" then 2 else 0
  {
    if maxPrice != "" then MaxPriceFilter(k) else []
  }

  /** A price bound goes in as the query gave it, unparsed. */
  function PriceArg(price: string): (args: seq<string>)
    ensures |args| == if price != "" then 1 else 0
  {
    if price != "" then [price] else []
  }

  function SearchArgs(q: string, minPrice: string, maxPrice: string): seq<string>
  {
    SearchArgsPart(q) + PriceArg(minPrice) + PriceArg(maxPrice)
  }

  /** `SearchProducts`' query building. */
  method SearchProductsQuery(q: string, minPrice: string, maxPrice: string) returns (query: string, args: seq<string>)
    ensures query == Render(SearchQuery(q, minPrice, maxPrice))
    ensures args == SearchArgs(q, minPrice, maxPrice)
  {
    query := SelectProducts;
    args := [];
    var argCount := 1;
    RenderOne(Text(SelectProducts));
    query, args, argCount := AddNameOrDescription(query, args, argCount, q, [Text(SelectProducts)]);
    query, args, argCount := AddPriceBounds(query, args, argCount, minPrice, maxPrice,
                                            [Text(SelectProducts)] + SearchPart(q, 1));
    var k1 := 1 + |SearchArgsPart(q)|;
    AppendText([Text(SelectProducts)] + SearchPart(q, 1) + MinPricePart(minPrice, k1) +
               MaxPricePart(maxPrice, k1 + |PriceArg(minPrice)|), query, NewestFirst);
    query := query + NewestFirst;
  }

  /** The two price filters of `SearchProducts`, numbered from `argCount`. */
  method AddPriceBounds(query0: string, args0: seq<string>, argCount0: nat, minPrice: string, maxPrice: string,
                        ghost fs: seq<Fragment>)
    returns (query: string, args: seq<string>, argCount: nat)
    requires query0 == Render(fs)
    ensures argCount == argCount0 + |PriceArg(minPrice)| + |PriceArg(maxPrice)|
    ensures query == Render(fs + MinPricePart(minPrice, argCount0) + MaxPricePart(maxPrice, argCount0 + |PriceArg(minPrice)|))
    ensures args == args0 + PriceArg(minPrice) + PriceArg(maxPrice)
  {
    query, args, argCount := query0, args0, argCount0;
    ghost var gs := fs;
    if minPrice != "" {
      var clause := " AND price >= $" + Decimal(argCount);
      RenderFilterMinPrice(argCount);
      AppendRendered(gs, MinPriceFilter(argCount), query, clause);
      query := query + clause;
      args := args + [minPrice];
      gs := gs + MinPriceFilter(argCount);
      argCount := argCount + 1;
    } else {
      assert gs + MinPricePart(minPrice, argCount) == gs;
      assert args + PriceArg(minPrice) == args;
    }
    assert gs == fs + MinPricePart(minPrice, argCount0);
    assert args == args0 + PriceArg(minPrice);
    if maxPrice != "" {
      var clause := " AND price <= $" + Decimal(argCount);
      RenderFilterMaxPrice(argCount);
      AppendRendered(gs, MaxPriceFilter(argCount), query, clause);
      query := query + clause;
      args := args + [maxPrice];
      gs := gs + MaxPriceFilter(argCount);
      argCount := argCount + 1;
    } else {
      assert gs + MaxPricePart(maxPrice, argCount) == gs;
      assert args + PriceArg(maxPrice) == args;
    }
  }

  // ---------------------------------------------------------------------------------
  // What each filter renders to

  lemma RenderOne(f: Fragment)
    ensures Render([f]) == RenderFragment(f)
  {
    assert [f][..0] == [];
  }

  lemma RenderFilterCategory(k: nat)
    ensures Render(CategoryFilter(k)) == " AND category = $" + Decimal(k)
  {
    var fs := CategoryFilter(k);
    assert fs[..1] == [fs[0]];
    RenderOne(fs[0]);
  }

  lemma RenderFilterMinPrice(k: nat)
    ensures Render(MinPriceFilter(k)) == " AND price >= $" + Decimal(k)
  {
    var fs := MinPriceFilter(k);
    assert fs[..1] == [fs[0]];
    RenderOne(fs[0]);
  }

  lemma RenderFilterMaxPrice(k: nat)
    ensures Render(MaxPriceFilter(k)) == " AND price <= $" + Decimal(k)
  {
    var fs := MaxPriceFilter(k);
    assert fs[..1] == [fs[0]];
    RenderOne(fs[0]);
  }

  lemma RenderFilterNameOrDescription(k: nat)
    ensures Render(NameOrDescriptionFilter(k)) ==
      " AND (name ILIKE $" + Decimal(k) + " OR description ILIKE $" + Decimal(k + 1) + ")"
  {
    var fs := NameOrDescriptionFilter(k);
    RenderFive(fs[0], fs[1], fs[2], fs[3], fs[4]);
    assert fs == [fs[0], fs[1], fs[2], fs[3], fs[4]];
  }

  lemma RenderFive(f0: Fragment, f1: Fragment, f2: Fragment, f3: Fragment, f4: Fragment)
    ensures Render([f0, f1, f2, f3, f4]) ==
      RenderFragment(f0) + RenderFragment(f1) + RenderFragment(f2) + RenderFragment(f3) + RenderFragment(f4)
  {
    var s1 := [f0];
    var s2 := s1 + [f1];
    var s3 := s2 + [f2];
    var s4 := s3 + [f3];
    var s5 := s4 + [f4];
    RenderOne(f0);
    RenderSnoc(s1, f1);
    RenderSnoc(s2, f2);
    RenderSnoc(s3, f3);
    RenderSnoc(s4, f4);
    assert s5 == [f0, f1, f2, f3, f4];
  }

  /** Appending fragments that render to `clause` appends `clause`. */
  lemma AppendRendered(fs: seq<Fragment>, gs: seq<Fragment>, query: string, clause: string)
    requires query == Render(fs) && clause == Render(gs)
    ensures query + clause == Render(fs + gs)
  {
    RenderAppend(fs, gs);
  }

  /** Appending a text fragment appends its text. */
  lemma AppendText(fs: seq<Fragment>, query: string, t: string)
    requires query == Render(fs)
    ensures query + t == Render(fs + [Text(t)])
  {
    RenderSnoc(fs, Text(t));
  }

  lemma RenderSnoc(fs: seq<Fragment>, f: Fragment)
    ensures Render(fs + [f]) == Render(fs) + RenderFragment(f)
  {
    assert (fs + [f])[..|fs|] == fs;
  }

  // ---------------------------------------------------------------------------------
  // Placeholder numbering

  /** `GetProducts` numbers its placeholders `$1` to `$n` in order, one per argument; the
      query starts with the select and ends newest first. */
  lemma ProductsQueryWellNumbered(category: string, search: string)
    ensures var fs, ps := ProductsQuery(category, search), Placeholders(ProductsQuery(category, search));
      |ps| == |ProductsArgs(category, search)| && CountsFrom(ps, 1) &&
      fs[0] == Text(SelectProducts) && fs[|fs| - 1] == Text(NewestFirst)
  {
    var c := CategoryPart(category);
    var n := |CategoryArgs(category)|;
    var s := SearchPart(search, 1 + n);
    var head := [Text(SelectProducts)];
    PlaceholdersOfText(SelectProducts);
    PlaceholdersOfText(NewestFirst);
    CategoryPartNumbered(category);
    SearchPartNumbered(search, 1 + n);
    NumberedAppend(head, c, 1);
    NumberedAppend(head + c, s, 1);
    NumberedAppend(head + c + s, [Text(NewestFirst)], 1);
  }

  /** `SearchProducts` numbers its placeholders the same way. */
  lemma SearchQueryWellNumbered(q: string, minPrice: string, maxPrice: string)
    ensures var fs, ps := SearchQuery(q, minPrice, maxPrice), Placeholders(SearchQuery(q, minPrice, maxPrice));
      |ps| == |SearchArgs(q, minPrice, maxPrice)| && CountsFrom(ps, 1) &&
      fs[0] == Text(SelectProducts) && fs[|fs| - 1] == Text(NewestFirst)
  {
    var na, nb := |SearchArgsPart(q)|, |PriceArg(minPrice)|;
    var a := SearchPart(q, 1);
    var b := MinPricePart(minPrice, 1 + na);
    var c := MaxPricePart(maxPrice, 1 + na + nb);
    var head := [Text(SelectProducts)];
    PlaceholdersOfText(SelectProducts);
    PlaceholdersOfText(NewestFirst);
    SearchPartNumbered(q, 1);
    PricePartsNumbered(minPrice, maxPrice, 1 + na, 1 + na + nb);
    NumberedAppend(head, a, 1);
    NumberedAppend(head + a, b, 1);
    NumberedAppend(head + a + b, c, 1);
    NumberedAppend(head + a + b + c, [Text(NewestFirst)], 1);
  }

  /** Two runs of consecutive placeholders, the second starting where the first ends, make
      one run. */
  lemma NumberedAppend(a: seq<Fragment>, b: seq<Fragment>, k: nat)
    requires CountsFrom(Placeholders(a), k) && CountsFrom(Placeholders(b), k + |Placeholders(a)|)
    ensures CountsFrom(Placeholders(a + b), k)
    ensures |Placeholders(a + b)| == |Placeholders(a)| + |Placeholders(b)|
  {
    PlaceholdersAppend(a, b);
    CountsFromAppend(Placeholders(a), Placeholders(b), k);
  }


  lemma PlaceholdersOfText(t: string)
    ensures Placeholders([Text(t)]) == []
  {
    assert [Text(t)][..0] == [];
  }

  lemma PlaceholdersOfPair(t: string, k: nat)
    ensures Placeholders([Text(t), Param(k)]) == [k]
  {
    var fs := [Text(t), Param(k)];
    assert fs[..1] == [Text(t)];
    PlaceholdersOfText(t);
  }

  lemma CategoryPartNumbered(category: string)
    ensures var ps := Placeholders(CategoryPart(category)); |ps| == |CategoryArgs(category)| && CountsFrom(ps, 1)
  {
    if category != "" {
      PlaceholdersOfPair(" AND category = ", 1);
    }
  }

  lemma PricePartsNumbered(minPrice: string, maxPrice: string, k1: nat, k2: nat)
    ensures var ps := Placeholders(MinPricePart(minPrice, k1)); |ps| == |PriceArg(minPrice)| && CountsFrom(ps, k1)
    ensures var ps := Placeholders(MaxPricePart(maxPrice, k2)); |ps| == |PriceArg(maxPrice)| && CountsFrom(ps, k2)
  {
    PlaceholdersOfPair(" AND price >= ", k1);
    PlaceholdersOfPair(" AND price <= ", k2);
  }

  lemma SearchPartNumbered(search: string, k: nat)
    ensures var ps := Placeholders(SearchPart(search, k)); |ps| == |SearchArgsPart(search)| && CountsFrom(ps, k)
  {
    if search != "" {
      var nd := NameOrDescriptionFilter(k);
      PlaceholdersOfPair(" AND (name ILIKE ", k);
      assert nd[..2] == [Text(" AND (name ILIKE "), Param(k)];
      assert nd[..3][..2] == nd[..2] && nd[..4][..3] == nd[..3] && nd[..4] == nd[..|nd| - 1];
      assert Placeholders(nd[..3]) == [k];
      assert Placeholders(nd[..4]) == [k, k + 1];
    }
  }
}
