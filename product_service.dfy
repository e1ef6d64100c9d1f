/** `productService.getAllProducts`: the query string sent to the product list
    endpoint, built by appending one parameter per usable filter. */
module ProductService {
  import opened Js
  import opened UrlSearchParams

  const AllCategories: string := "All"
  const CategoryKey: string := "category"
  const SearchKey: string := "search"
  const MinPriceKey: string := "minPrice"
  const MaxPriceKey: string := "maxPrice"

  /** The filter keys `getAllProducts` reads; an absent key is `None`. Any other
      key of the object passed in is never read, so it has no field here. */
  datatype ProductFilters = ProductFilters(
    category: Option<string>,
    search: Option<string>,
    minPrice: Option<Number>,
    maxPrice: Option<Number>)

  /** `if (filters.minPrice)`: undefined, 0 and NaN are falsy. */
  predicate PriceTruthy(n: Option<Number>) {
    n.Some? && NumberTruthy(n.value)
  }

  predicate SendsCategory(f: ProductFilters) {
    StringTruthy(f.category) && f.category.value != AllCategories
  }

  /** One pair when `send` holds, none otherwise. */
  function PairIf(send: bool, k: string, v: string): Params {
    if send then [(k, v)] else []
  }

  /** The parameters in the order they are appended. */
  function ExpectedParams(f: ProductFilters): Params {
    PairIf(SendsCategory(f), CategoryKey, f.category.GetOr(""))
    + PairIf(StringTruthy(f.search), SearchKey, f.search.GetOr(""))
    + PairIf(PriceTruthy(f.minPrice), MinPriceKey, NumberToString(f.minPrice.GetOr(NaN)))
    + PairIf(PriceTruthy(f.maxPrice), MaxPriceKey, NumberToString(f.maxPrice.GetOr(NaN)))
  }

  /** The `URLSearchParams` filled by `getAllProducts`. */
  method GetAllProductsParams(f: ProductFilters) returns (params: Params)
    ensures params == ExpectedParams(f)
  {
    params := [];
    if StringTruthy(f.category) && f.category.value != AllCategories {
      params := Append(params, CategoryKey, f.category.value);
    }
    if StringTruthy(f.search) {
      params := Append(params, SearchKey, f.search.value);
    }
    if PriceTruthy(f.minPrice) {
      params := Append(params, MinPriceKey, NumberToString(f.minPrice.value));
    }
    if PriceTruthy(f.maxPrice) {
      params := Append(params, MaxPriceKey, NumberToString(f.maxPrice.value));
    }
  }

  /** Only usable filters become parameters: a category of "All", an empty
      search and a price of 0 or NaN are left out. */
  lemma ExpectedParamsKeys(f: ProductFilters)
    ensures Keys(ExpectedParams(f)) ==
      (if SendsCategory(f) then {CategoryKey} else {})
      + (if StringTruthy(f.search) then {SearchKey} else {})
      + (if PriceTruthy(f.minPrice) then {MinPriceKey} else {})
      + (if PriceTruthy(f.maxPrice) then {MaxPriceKey} else {})
  {
    var a := PairIf(SendsCategory(f), CategoryKey, f.category.GetOr(""));
    var b := PairIf(StringTruthy(f.search), SearchKey, f.search.GetOr(""));
    var c := PairIf(PriceTruthy(f.minPrice), MinPriceKey, NumberToString(f.minPrice.GetOr(NaN)));
    var d := PairIf(PriceTruthy(f.maxPrice), MaxPriceKey, NumberToString(f.maxPrice.GetOr(NaN)));
    KeysConcat(a, b);
    KeysConcat(a + b, c);
    KeysConcat(a + b + c, d);
    KeysOfPair(SendsCategory(f), CategoryKey, f.category.GetOr(""));
    KeysOfPair(StringTruthy(f.search), SearchKey, f.search.GetOr(""));
    KeysOfPair(PriceTruthy(f.minPrice), MinPriceKey, NumberToString(f.minPrice.GetOr(NaN)));
    KeysOfPair(PriceTruthy(f.maxPrice), MaxPriceKey, NumberToString(f.maxPrice.GetOr(NaN)));
  }

  lemma KeysOfPair(send: bool, k: string, v: string)
    ensures Keys(PairIf(send, k, v)) == if send then {k} else {}
  {
    if send {
      assert PairIf(send, k, v)[1..] == [];
    }
  }

  lemma {:induction false} KeysConcat(a: Params, b: Params)
    ensures Keys(a + b) == Keys(a) + Keys(b)
  {
    if a != [] {
      assert (a + b)[1..] == a[1..] + b;
      KeysConcat(a[1..], b);
    } else {
      assert a + b == b;
    }
  }

  lemma {:induction false} GetConcat(a: Params, b: Params, k: string)
    ensures Get(a + b, k) == if k in Keys(a) then Get(a, k) else Get(b, k)
  {
    if a != [] {
      assert (a + b)[1..] == a[1..] + b;
      GetConcat(a[1..], b, k);
    } else {
      assert a + b == b;
    }
  }

  /** The four pairs, any of which may be missing; keys distinct and in order. */
  lemma GetOfFour(a: Params, b: Params, c: Params, d: Params, k: string)
    requires Keys(a) <= {CategoryKey} && Keys(b) <= {SearchKey}
    requires Keys(c) <= {MinPriceKey} && Keys(d) <= {MaxPriceKey}
    ensures k == CategoryKey ==> Get(a + b + c + d, k) == Get(a, k)
    ensures k == SearchKey ==> Get(a + b + c + d, k) == Get(b, k)
    ensures k == MinPriceKey ==> Get(a + b + c + d, k) == Get(c, k)
    ensures k == MaxPriceKey ==> Get(a + b + c + d, k) == Get(d, k)
  {
    GetConcat(a, b, k);
    GetConcat(a + b, c, k);
    GetConcat(a + b + c, d, k);
    KeysConcat(a, b);
    KeysConcat(a + b, c);
    if k !in Keys(a) { assert Get(a, k) == None; }
    if k !in Keys(b) { assert Get(b, k) == None; }
    if k !in Keys(c) { assert Get(c, k) == None; }
    if k !in Keys(d) { assert Get(d, k) == None; }
  }

  /** What the endpoint reads back with `get`: the filter's own value when it is
      usable, nothing otherwise. */
  lemma ExpectedParamsValues(f: ProductFilters)
    ensures Get(ExpectedParams(f), CategoryKey) == (if SendsCategory(f) then f.category else None)
    ensures Get(ExpectedParams(f), SearchKey) == (if StringTruthy(f.search) then f.search else None)
    ensures Get(ExpectedParams(f), MinPriceKey) ==
      (if PriceTruthy(f.minPrice) then Some(NumberToString(f.minPrice.value)) else None)
    ensures Get(ExpectedParams(f), MaxPriceKey) ==
      (if PriceTruthy(f.maxPrice) then Some(NumberToString(f.maxPrice.value)) else None)
  {
    var a := PairIf(SendsCategory(f), CategoryKey, f.category.GetOr(""));
    var b := PairIf(StringTruthy(f.search), SearchKey, f.search.GetOr(""));
    var c := PairIf(PriceTruthy(f.minPrice), MinPriceKey, NumberToString(f.minPrice.GetOr(NaN)));
    var d := PairIf(PriceTruthy(f.maxPrice), MaxPriceKey, NumberToString(f.maxPrice.GetOr(NaN)));
    KeysOfPair(SendsCategory(f), CategoryKey, f.category.GetOr(""));
    KeysOfPair(StringTruthy(f.search), SearchKey, f.search.GetOr(""));
    KeysOfPair(PriceTruthy(f.minPrice), MinPriceKey, NumberToString(f.minPrice.GetOr(NaN)));
    KeysOfPair(PriceTruthy(f.maxPrice), MaxPriceKey, NumberToString(f.maxPrice.GetOr(NaN)));
    GetOfFour(a, b, c, d, CategoryKey);
    GetOfFour(a, b, c, d, SearchKey);
    GetOfFour(a, b, c, d, MinPriceKey);
    GetOfFour(a, b, c, d, MaxPriceKey);
  }
}
