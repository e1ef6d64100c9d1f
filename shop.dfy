/** The shop page: the filters read from the URL's query parameters, the
    handlers that rewrite those parameters, whether any filter is active, the
    heading, and the request made for the product list. */
module Shop {
  import opened Js
  import opened UrlSearchParams
  import ProductService

  const AllCategories: string := "All"
  const DefaultMinPrice: int := 0
  const DefaultMaxPrice: int := 500
  const DefaultSort: string := "newest"
  const NewFilter: string := "new"

  const QueryKey: string := "q"
  const CategoryKey: string := "category"
  const MinPriceKey: string := "minPrice"
  const MaxPriceKey: string := "maxPrice"
  const SortKey: string := "sort"
  const FilterKey: string := "filter"

  const NewArrivalsHeading: string := "New Arrivals"
  const AllProductsHeading: string := "All Products"

  /** The filters the page derives from its query parameters. */
  datatype Filters = Filters(
    query: string,
    category: string,
    minPrice: Number,
    maxPrice: Number,
    sortBy: string,
    filter: string)

  /** `searchParams.get(k) || default`, with the prices read by `parseInt`. */
  function ReadFilters(p: Params): Filters {
    Filters(
      StringOr(Get(p, QueryKey), ""),
      StringOr(Get(p, CategoryKey), AllCategories),
      ParseInt(StringOr(Get(p, MinPriceKey), "0")),
      ParseInt(StringOr(Get(p, MaxPriceKey), "500")),
      StringOr(Get(p, SortKey), DefaultSort),
      StringOr(Get(p, FilterKey), ""))
  }

  /** The filters of a page with no parameters. */
  const Defaults: Filters := Filters("", AllCategories, Int(DefaultMinPrice), Int(DefaultMaxPrice), DefaultSort, "")

  /** An absent or empty parameter reads as its default: every category, prices
      0 to 500, the `newest` sort, no query and no filter. */
  lemma ReadDefaults(p: Params)
    requires forall k :: k in Keys(p) ==> Get(p, k) == Some("")
    ensures ReadFilters(p) == Defaults
  {
    DefaultPricesParse();
    if QueryKey in Keys(p) { assert Get(p, QueryKey) == Some(""); }
    if CategoryKey in Keys(p) { assert Get(p, CategoryKey) == Some(""); }
    if MinPriceKey in Keys(p) { assert Get(p, MinPriceKey) == Some(""); }
    if MaxPriceKey in Keys(p) { assert Get(p, MaxPriceKey) == Some(""); }
    if SortKey in Keys(p) { assert Get(p, SortKey) == Some(""); }
    if FilterKey in Keys(p) { assert Get(p, FilterKey) == Some(""); }
  }

  lemma DefaultPricesParse()
    ensures ParseInt("0") == Int(DefaultMinPrice) && ParseInt("500") == Int(DefaultMaxPrice)
  {
    ParseNonNegativePrinted(0);
    ParseNonNegativePrinted(500);
    assert IntToString(0) == "0";
    assert NatToString(5) == "5";
    assert NatToString(50) == "5" + "0";
    assert NatToString(500) == "50" + "0";
    assert IntToString(500) == "500";
  }

  /** `hasActiveFilters`; a NaN price compares false both ways. */
  predicate HasActiveFilters(f: Filters) {
    f.query != "" || f.category != AllCategories || GreaterThan(f.minPrice, 0)
    || LessThan(f.maxPrice, DefaultMaxPrice) || f.filter != ""
  }

  /** The defaults are no active filter, and neither is a sort order alone. */
  lemma DefaultsInactive(sortBy: string)
    ensures !HasActiveFilters(Defaults)
    ensures !HasActiveFilters(Defaults.(sortBy := sortBy))
  {
  }

  /** The page heading. */
  function Heading(f: Filters): (h: string)
    ensures f.filter == NewFilter ==> h == NewArrivalsHeading
    ensures f.filter != NewFilter && f.category != AllCategories ==> h == f.category
    ensures f.filter != NewFilter && f.category == AllCategories ==> h == AllProductsHeading
  {
    if f.filter == NewFilter then NewArrivalsHeading
    else if f.category != AllCategories then f.category
    else AllProductsHeading
  }

  // ---------------------------------------------------------------------------
  // Handlers

  /** The parameters after `updateFilter(key, value)`. */
  function FilterUpdated(p: Params, key: string, value: string): Params {
    if value != "" && value != AllCategories then Set(p, key, value) else Delete(p, key)
  }

  /** `updateFilter` sets the key to a usable value and removes it otherwise;
      every other key keeps its value. */
  lemma FilterUpdatedEffect(p: Params, key: string, value: string)
    ensures Get(FilterUpdated(p, key, value), key) ==
      if value != "" && value != AllCategories then Some(value) else None
    ensures forall j :: j != key ==> Get(FilterUpdated(p, key, value), j) == Get(p, j)
  {
  }

  /** Choosing a category shows it in the heading and counts as an active filter,
      unless the `new` filter is on; choosing "All" goes back to every category. */
  lemma ChooseCategory(p: Params, c: string)
    requires Get(p, FilterKey) != Some(NewFilter)
    ensures var f := ReadFilters(FilterUpdated(p, CategoryKey, c));
      if c != "" && c != AllCategories then Heading(f) == c && HasActiveFilters(f)
      else f.category == AllCategories
  {
    FilterUpdatedEffect(p, CategoryKey, c);
  }

  /** The parameters after `applyPriceRange` with the slider at `[lo, hi]`. */
  function PriceApplied(p: Params, lo: Number, hi: Number): Params {
    Set(Set(p, MinPriceKey, NumberToString(lo)), MaxPriceKey, NumberToString(hi))
  }

  /** Applying the range and reading the page's filters back gives exactly the
      slider's range, with every other filter as it was. */
  lemma PriceAppliedReadsBack(p: Params, lo: Number, hi: Number)
    ensures ReadFilters(PriceApplied(p, lo, hi)) == ReadFilters(p).(minPrice := lo, maxPrice := hi)
  {
    ParsePrinted(lo);
    ParsePrinted(hi);
    PrintedIsTruthy(lo);
    PrintedIsTruthy(hi);
  }

  lemma PrintedIsTruthy(n: Number)
    ensures NumberToString(n) != ""
  {
    if n.Int? {
      if n.value < 0 {
        assert IntToString(n.value)[0] == '-';
      } else {
        assert |NatToString(n.value)| > 0;
      }
    }
  }

  /** The product list request made by `fetchProducts`: the page passes its
      query as `query` and the new filter as `isNew`, which the service does not
      read, so only the category and the prices can reach the server. */
  function ProductRequest(f: Filters): ProductService.ProductFilters {
    ProductService.ProductFilters(Some(f.category), None, Some(f.minPrice), Some(f.maxPrice))
  }

  /** The search box, the sort and the `new` filter never reach the product list
      request; a price of 0 is not sent either. */
  lemma RequestIgnoresQuery(f: Filters)
    ensures var params := ProductService.ExpectedParams(ProductRequest(f));
      Get(params, ProductService.SearchKey) == None
      && Keys(params) <= {ProductService.CategoryKey, ProductService.MinPriceKey, ProductService.MaxPriceKey}
      && (f.minPrice == Int(0) ==> Get(params, ProductService.MinPriceKey) == None)
      && ProductRequest(f) == ProductRequest(f.(query := "", sortBy := DefaultSort, filter := ""))
  {
    ProductService.ExpectedParamsKeys(ProductRequest(f));
    ProductService.ExpectedParamsValues(ProductRequest(f));
  }

  /** The page's URL parameters and its local slider range. */
  class ShopPage {
    var params: Params
    var localMin: Number
    var localMax: Number

    /** The page opens with the slider on the range read from the URL. */
    constructor (initial: Params)
      ensures params == initial
      ensures localMin == ReadFilters(initial).minPrice && localMax == ReadFilters(initial).maxPrice
    {
      params := initial;
      localMin := ReadFilters(initial).minPrice;
      localMax := ReadFilters(initial).maxPrice;
    }

    function Current(): Filters
      reads this
    {
      ReadFilters(params)
    }

    /** `updateFilter(key, value)` */
    method UpdateFilter(key: string, value: string)
      modifies this
      ensures params == FilterUpdated(old(params), key, value)
      ensures localMin == old(localMin) && localMax == old(localMax)
    {
      var newParams := params;
      if value != "" && value != AllCategories {
        newParams := Set(newParams, key, value);
      } else {
        newParams := Delete(newParams, key);
      }
      params := newParams;
    }

    /** `setLocalPriceRange`, called while the slider moves. */
    method SetLocalRange(lo: int, hi: int)
      modifies this
      ensures localMin == Int(lo) && localMax == Int(hi) && params == old(params)
    {
      localMin := Int(lo);
      localMax := Int(hi);
    }

    /** `applyPriceRange` */
    method ApplyPriceRange()
      modifies this
      ensures params == PriceApplied(old(params), localMin, localMax)
      ensures localMin == old(localMin) && localMax == old(localMax)
      ensures Current() == old(Current()).(minPrice := localMin, maxPrice := localMax)
    {
      var newParams := params;
      newParams := Set(newParams, MinPriceKey, NumberToString(localMin));
      newParams := Set(newParams, MaxPriceKey, NumberToString(localMax));
      PriceAppliedReadsBack(params, localMin, localMax);
      params := newParams;
    }

    /** `clearFilters` */
    method ClearFilters()
      modifies this
      ensures params == [] && localMin == Int(DefaultMinPrice) && localMax == Int(DefaultMaxPrice)
      ensures Current() == Defaults && !HasActiveFilters(Current())
    {
      params := [];
      localMin := Int(DefaultMinPrice);
      localMax := Int(DefaultMaxPrice);
      ReadDefaults([]);
    }
  }
}
