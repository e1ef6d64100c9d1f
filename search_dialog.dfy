/** The search dialog: the products matching the query, category and price range,
    their order, the six shown, and the shop link built by "View all". */
module SearchDialog {
  import opened Js
  import opened JsString
  import opened Catalog
  import opened UrlSearchParams

  const AllCategories: string := "All"
  const PriceLow: string := "price-low"
  const PriceHigh: string := "price-high"
  const Newest: string := "newest"

  /** How many results the dialog renders. */
  const ShownResults: nat := 6

  const QueryKey: string := "q"
  const CategoryKey: string := "category"
  const MinPriceKey: string := "minPrice"
  const MaxPriceKey: string := "maxPrice"
  const SortKey: string := "sort"

  // ---------------------------------------------------------------------------
  // Filter

  /** The lower-cased name or description contains the lower-cased query. */
  predicate MatchesQuery(p: Product, query: string) {
    Includes(ToLower(p.name), ToLower(query)) || Includes(ToLower(p.description), ToLower(query))
  }

  predicate MatchesCategory(p: Product, category: string) {
    category == AllCategories || p.category == category
  }

  /** The price lies in the slider's range, both ends included. */
  predicate MatchesPrice(p: Product, minPrice: int, maxPrice: int) {
    p.price >= minPrice && p.price <= maxPrice
  }

  predicate Matches(p: Product, query: string, category: string, minPrice: int, maxPrice: int) {
    MatchesQuery(p, query) && MatchesCategory(p, category) && MatchesPrice(p, minPrice, maxPrice)
  }

  /** `DEMO_PRODUCTS.filter(...)` */
  function Filter(products: seq<Product>, query: string, category: string, minPrice: int, maxPrice: int): (r: seq<Product>)
    ensures multiset(r) <= multiset(products)
  {
    if products == [] then []
    else
      assert products == [products[0]] + products[1..];
      var rest := Filter(products[1..], query, category, minPrice, maxPrice);
      if Matches(products[0], query, category, minPrice, maxPrice) then [products[0]] + rest else rest
  }

  /** A product is a result exactly when it is in the catalogue and passes all
      three checks. */
  lemma {:induction false} FilterIff(products: seq<Product>, query: string, category: string, minPrice: int, maxPrice: int)
    ensures forall p :: p in Filter(products, query, category, minPrice, maxPrice) <==>
      p in products && Matches(p, query, category, minPrice, maxPrice)
  {
    if products != [] {
      FilterIff(products[1..], query, category, minPrice, maxPrice);
      assert forall p :: p in products <==> p == products[0] || p in products[1..];
    }
  }

  /** With the dialog's initial state (empty query, every category, range
      [lo, hi]) only the price decides. */
  lemma {:induction false} OpenFilterKeepsPriceRange(products: seq<Product>, minPrice: int, maxPrice: int)
    ensures forall p :: p in Filter(products, "", AllCategories, minPrice, maxPrice) <==>
      p in products && minPrice <= p.price <= maxPrice
  {
    FilterIff(products, "", AllCategories, minPrice, maxPrice);
    assert ToLower("") == "";
    forall p | p in products ensures MatchesQuery(p, "") {
      IncludesEmpty(ToLower(p.name));
    }
  }

  // ---------------------------------------------------------------------------
  // Sort

  /** The sort key: the price for `price-low`, its negation for `price-high`, so
      both orders are "non-decreasing key". */
  function Key(p: Product, descending: bool): int {
    if descending then -p.price else p.price
  }

  predicate SortedBy(xs: seq<Product>, descending: bool) {
    forall i, j :: 0 <= i < j < |xs| ==> Key(xs[i], descending) <= Key(xs[j], descending)
  }

  /** Puts `x` in front of the first element whose key is not smaller: elements
      with equal keys keep their relative order, as `Array.prototype.sort` does. */
  function Insert(x: Product, xs: seq<Product>, descending: bool): (r: seq<Product>)
    requires SortedBy(xs, descending)
    ensures multiset(r) == multiset(xs) + multiset{x}
    ensures SortedBy(r, descending)
  {
    if xs == [] || Key(x, descending) <= Key(xs[0], descending) then
      PrependSmallest(x, xs, descending);
      [x] + xs
    else
      TailSorted(xs, descending);
      var rest := Insert(x, xs[1..], descending);
      InsertBehindHead(xs, x, rest, descending);
      assert xs == [xs[0]] + xs[1..];
      [xs[0]] + rest
  }

  lemma TailSorted(xs: seq<Product>, descending: bool)
    requires xs != [] && SortedBy(xs, descending)
    ensures SortedBy(xs[1..], descending)
  {
    forall i, j | 0 <= i < j < |xs[1..]| ensures Key(xs[1..][i], descending) <= Key(xs[1..][j], descending) {
      assert xs[1..][i] == xs[i + 1] && xs[1..][j] == xs[j + 1];
    }
  }

  lemma PrependSmallest(x: Product, xs: seq<Product>, descending: bool)
    requires SortedBy(xs, descending)
    requires xs == [] || Key(x, descending) <= Key(xs[0], descending)
    ensures SortedBy([x] + xs, descending)
  {
    var s := [x] + xs;
    forall i, j | 0 <= i < j < |s| ensures Key(s[i], descending) <= Key(s[j], descending) {
      if i == 0 {
        assert s[j] == xs[j - 1];
        if j > 1 {
          assert Key(xs[0], descending) <= Key(xs[j - 1], descending);
        }
      } else {
        assert s[i] == xs[i - 1] && s[j] == xs[j - 1];
      }
    }
  }

  lemma InsertBehindHead(xs: seq<Product>, x: Product, rest: seq<Product>, descending: bool)
    requires xs != [] && SortedBy(xs, descending) && Key(xs[0], descending) < Key(x, descending)
    requires SortedBy(rest, descending) && multiset(rest) == multiset(xs[1..]) + multiset{x}
    ensures SortedBy([xs[0]] + rest, descending)
  {
    var s := [xs[0]] + rest;
    forall j | 0 < j < |s| ensures Key(xs[0], descending) <= Key(s[j], descending) {
      assert s[j] in multiset(rest);
      if s[j] != x {
        assert s[j] in multiset(xs[1..]);
        var k :| 0 <= k < |xs[1..]| && xs[1..][k] == s[j];
        assert xs[k + 1] == s[j];
      }
    }
    forall i, j | 0 <= i < j < |s| ensures Key(s[i], descending) <= Key(s[j], descending) {
      if i > 0 {
        assert s[i] == rest[i - 1] && s[j] == rest[j - 1];
      }
    }
  }

  /** A stable sort by the key. */
  function SortBy(xs: seq<Product>, descending: bool): (r: seq<Product>)
    ensures multiset(r) == multiset(xs)
    ensures SortedBy(r, descending)
  {
    if xs == [] then []
    else
      assert xs == [xs[0]] + xs[1..];
      Insert(xs[0], SortBy(xs[1..], descending), descending)
  }

  /** The products of `xs` priced `v`, in their order in `xs`. */
  function PricedAt(xs: seq<Product>, v: int): seq<Product> {
    if xs == [] then []
    else (if xs[0].price == v then [xs[0]] else []) + PricedAt(xs[1..], v)
  }

  lemma {:induction false} InsertPricedAt(x: Product, xs: seq<Product>, descending: bool, v: int)
    requires SortedBy(xs, descending)
    ensures PricedAt(Insert(x, xs, descending), v) == (if x.price == v then [x] else []) + PricedAt(xs, v)
  {
    if xs == [] || Key(x, descending) <= Key(xs[0], descending) {
      assert ([x] + xs)[1..] == xs;
    } else {
      TailSorted(xs, descending);
      InsertPricedAt(x, xs[1..], descending, v);
      assert ([xs[0]] + Insert(x, xs[1..], descending))[1..] == Insert(x, xs[1..], descending);
    }
  }

  /** The sort is stable: for every price, the products of that price come out in
      the order they went in, wherever they sit among the others. */
  lemma {:induction false} SortKeepsEqualPrices(xs: seq<Product>, descending: bool, v: int)
    ensures PricedAt(SortBy(xs, descending), v) == PricedAt(xs, v)
  {
    if xs != [] {
      SortKeepsEqualPrices(xs[1..], descending, v);
      InsertPricedAt(xs[0], SortBy(xs[1..], descending), descending, v);
    }
  }

  /** `.sort(...)` on the filtered products. The `newest` comparator is not a
      consistent comparison, so the order the engine then produces is not
      modelled: that case keeps the filtered order, as every other unknown sort
      does (its comparator returns 0). */
  function Sort(xs: seq<Product>, sortBy: string): (r: seq<Product>)
    ensures multiset(r) == multiset(xs)
    ensures sortBy == PriceLow ==> forall i, j :: 0 <= i < j < |r| ==> r[i].price <= r[j].price
    ensures sortBy == PriceHigh ==> forall i, j :: 0 <= i < j < |r| ==> r[i].price >= r[j].price
    ensures sortBy != PriceLow && sortBy != PriceHigh ==> r == xs
  {
    if sortBy == PriceLow then SortBy(xs, false)
    else if sortBy == PriceHigh then SortBy(xs, true)
    else xs
  }

  /** `filteredProducts` */
  function Results(products: seq<Product>, query: string, category: string, minPrice: int, maxPrice: int, sortBy: string): seq<Product> {
    Sort(Filter(products, query, category, minPrice, maxPrice), sortBy)
  }

  /** The results are exactly the matching products, each as often as in the
      catalogue's filtered list: the sort neither adds nor drops a product. */
  lemma ResultsAreMatches(products: seq<Product>, query: string, category: string, minPrice: int, maxPrice: int, sortBy: string)
    ensures var r := Results(products, query, category, minPrice, maxPrice, sortBy);
      (forall p :: p in r <==> p in products && Matches(p, query, category, minPrice, maxPrice))
      && multiset(r) == multiset(Filter(products, query, category, minPrice, maxPrice))
      && multiset(r) <= multiset(products)
  {
    var f := Filter(products, query, category, minPrice, maxPrice);
    FilterIff(products, query, category, minPrice, maxPrice);
    assert forall p :: p in Sort(f, sortBy) <==> p in multiset(f);
  }

  /** `filteredProducts.slice(0, 6)` */
  function Shown(results: seq<Product>): (r: seq<Product>)
    ensures |r| <= ShownResults
    ensures |r| == if |results| < ShownResults then |results| else ShownResults
    ensures r == results[..|r|]
  {
    if |results| <= ShownResults then results else results[..ShownResults]
  }

  // ---------------------------------------------------------------------------
  // "View all in Shop"

  /** `handleViewAll`: the parameters of the shop link, set one after the other
      on an empty `URLSearchParams`. */
  method ViewAllParams(query: string, category: string, minPrice: int, maxPrice: int, sortBy: string) returns (params: Params)
    ensures params == ViewAllLink(query, category, minPrice, maxPrice, sortBy)
  {
    params := [];
    if query != "" {
      params := Set(params, QueryKey, query);
    }
    if category != AllCategories {
      params := Set(params, CategoryKey, category);
    }
    params := Set(params, MinPriceKey, IntToString(minPrice));
    params := Set(params, MaxPriceKey, IntToString(maxPrice));
    params := Set(params, SortKey, sortBy);
  }

  function SetIf(p: Params, cond: bool, k: string, v: string): Params {
    if cond then Set(p, k, v) else p
  }

  function ViewAllLink(query: string, category: string, minPrice: int, maxPrice: int, sortBy: string): Params {
    var withQuery := SetIf([], query != "", QueryKey, query);
    var withCategory := SetIf(withQuery, category != AllCategories, CategoryKey, category);
    Set(Set(Set(withCategory, MinPriceKey, IntToString(minPrice)), MaxPriceKey, IntToString(maxPrice)), SortKey, sortBy)
  }

  /** The link carries the query only when one was typed. */
  lemma ViewAllLinkQuery(query: string, category: string, minPrice: int, maxPrice: int, sortBy: string)
    ensures Get(ViewAllLink(query, category, minPrice, maxPrice, sortBy), QueryKey) ==
      if query != "" then Some(query) else None
  {
    var p0 := SetIf([], query != "", QueryKey, query);
    assert Get(p0, QueryKey) == (if query != "" then Some(query) else None);
    var p1 := SetIf(p0, category != AllCategories, CategoryKey, category);
    assert Get(p1, QueryKey) == Get(p0, QueryKey);
  }

  /** The link carries the category only when one other than "All" was chosen. */
  lemma ViewAllLinkCategory(query: string, category: string, minPrice: int, maxPrice: int, sortBy: string)
    ensures Get(ViewAllLink(query, category, minPrice, maxPrice, sortBy), CategoryKey) ==
      if category != AllCategories then Some(category) else None
  {
    var p0 := SetIf([], query != "", QueryKey, query);
    assert Get(p0, CategoryKey) == None;
  }

  /** The price range and the sort are always in the link. */
  lemma ViewAllLinkRangeAndSort(query: string, category: string, minPrice: int, maxPrice: int, sortBy: string)
    ensures var p := ViewAllLink(query, category, minPrice, maxPrice, sortBy);
      Get(p, MinPriceKey) == Some(IntToString(minPrice))
      && Get(p, MaxPriceKey) == Some(IntToString(maxPrice))
      && Get(p, SortKey) == Some(sortBy)
  {
  }

  /** No other parameter is in the link. */
  lemma ViewAllLinkKeys(query: string, category: string, minPrice: int, maxPrice: int, sortBy: string)
    ensures Keys(ViewAllLink(query, category, minPrice, maxPrice, sortBy)) ==
      {MinPriceKey, MaxPriceKey, SortKey}
      + (if query != "" then {QueryKey} else {})
      + (if category != AllCategories then {CategoryKey} else {})
  {
    var p0 := SetIf([], query != "", QueryKey, query);
    assert Keys(p0) == if query != "" then {QueryKey} else {};
  }
}
