/** The server's dynamically built SQL. A query is a list of fragments: SQL text,
    numbered placeholders `$n`, and (only in reference definitions) inline values.
    Binding replaces `$n` by the n-th parameter, so a builder is correct when
    binding its placeholders to its parameter list gives the reference query. */
module SqlQuery {
  import opened Js

  datatype Fragment = Text(sql: string) | Param(n: nat) | Value(v: string)

  type Query = seq<Fragment>

  /** The placeholder numbers in order of appearance. */
  function Numbers(q: Query): seq<nat> {
    if q == [] then []
    else Numbers(q[..|q| - 1]) + (if q[|q| - 1].Param? then [q[|q| - 1].n] else [])
  }

  lemma NumbersAppendText(q: Query, t: string)
    ensures Numbers(q + [Text(t)]) == Numbers(q)
  {
    assert (q + [Text(t)])[..|q|] == q;
  }

  lemma NumbersAppendParam(q: Query, n: nat)
    ensures Numbers(q + [Param(n)]) == Numbers(q) + [n]
  {
    assert (q + [Param(n)])[..|q|] == q;
  }

  /** Placeholder numbers start at 1, and each is the same as the one before it or
      one more, ending at `count`: every number 1..count is used and no other. */
  predicate Consecutive(ns: seq<nat>, count: nat) {
    if ns == [] then count == 0
    else
      var prior := ns[..|ns| - 1];
      count >= 1 && ns[|ns| - 1] == count && (Consecutive(prior, count) || Consecutive(prior, count - 1))
  }

  /** 1, 2, ..., n: every number used exactly once, in order. */
  function Upto(n: nat): (r: seq<nat>)
    ensures |r| == n && forall i :: 0 <= i < n ==> r[i] == i + 1
  {
    if n == 0 then [] else Upto(n - 1) + [n]
  }

  /** Every placeholder refers to an existing parameter. */
  predicate AllBound(q: Query, count: nat) {
    q == [] || (AllBound(q[..|q| - 1], count) && (q[|q| - 1].Param? ==> 1 <= q[|q| - 1].n <= count))
  }

  function BindOne(x: Fragment, params: seq<string>): Fragment
    requires x.Param? ==> 1 <= x.n <= |params|
  {
    if x.Param? then Value(params[x.n - 1]) else x
  }

  /** What the database executes: each `$n` replaced by `params[n - 1]`. */
  function Bind(q: Query, params: seq<string>): (r: Query)
    requires AllBound(q, |params|)
    ensures |r| == |q|
  {
    if q == [] then [] else Bind(q[..|q| - 1], params) + [BindOne(q[|q| - 1], params)]
  }

  lemma {:induction false} BindExtend(q: Query, params: seq<string>, more: seq<string>)
    requires AllBound(q, |params|)
    ensures AllBound(q, |params + more|)
    ensures Bind(q, params + more) == Bind(q, params)
  {
    if q != [] {
      BindExtend(q[..|q| - 1], params, more);
    }
  }

  lemma BindSnoc(q: Query, params: seq<string>, x: Fragment)
    requires AllBound(q, |params|) && (x.Param? ==> 1 <= x.n <= |params|)
    ensures AllBound(q + [x], |params|)
    ensures Bind(q + [x], params) == Bind(q, params) + [BindOne(x, params)]
  {
    assert (q + [x])[..|q|] == q;
  }

  /** Well numbered: placeholders run consecutively from 1 to the parameter count
      and each refers to a parameter. */
  predicate Numbered(q: Query, params: seq<string>) {
    Consecutive(Numbers(q), |params|) && AllBound(q, |params|)
  }

  lemma ConsecutiveSame(ns: seq<nat>, c: nat)
    requires Consecutive(ns, c) && c > 0
    ensures Consecutive(ns + [c], c)
  {
    assert (ns + [c])[..|ns|] == ns;
  }

  lemma ConsecutiveNext(ns: seq<nat>, c: nat)
    requires Consecutive(ns, c)
    ensures Consecutive(ns + [c + 1], c + 1)
  {
    assert (ns + [c + 1])[..|ns|] == ns;
  }

  /** Appending text keeps the numbering and binds to itself. */
  lemma AppendText(q: Query, params: seq<string>, t: string)
    requires Numbered(q, params)
    ensures Numbered(q + [Text(t)], params)
    ensures Numbers(q + [Text(t)]) == Numbers(q)
    ensures Bind(q + [Text(t)], params) == Bind(q, params) + [Text(t)]
  {
    NumbersAppendText(q, t);
    BindSnoc(q, params, Text(t));
  }

  /** Appending a placeholder that repeats the current number. */
  lemma AppendSameParam(q: Query, params: seq<string>)
    requires Numbered(q, params) && |params| > 0
    ensures Numbered(q + [Param(|params|)], params)
    ensures Numbers(q + [Param(|params|)]) == Numbers(q) + [|params|]
    ensures Bind(q + [Param(|params|)], params) == Bind(q, params) + [Value(params[|params| - 1])]
  {
    NumbersAppendParam(q, |params|);
    ConsecutiveSame(Numbers(q), |params|);
    BindSnoc(q, params, Param(|params|));
  }

  /** Appending a placeholder with the next number, together with its parameter. */
  lemma AppendNextParam(q: Query, params: seq<string>, v: string)
    requires Numbered(q, params)
    ensures Numbered(q + [Param(|params| + 1)], params + [v])
    ensures Numbers(q + [Param(|params| + 1)]) == Numbers(q) + [|params| + 1]
    ensures Bind(q + [Param(|params| + 1)], params + [v]) == Bind(q, params) + [Value(v)]
  {
    var ps := params + [v];
    NumbersAppendParam(q, |params| + 1);
    ConsecutiveNext(Numbers(q), |params|);
    BindExtend(q, params, [v]);
    BindSnoc(q, ps, Param(|ps|));
  }

  /** `query += " text $n"` with `params.push(v)`. */
  lemma AppendCondition(q: Query, params: seq<string>, t: string, v: string)
    requires Numbered(q, params)
    ensures Numbered(q + [Text(t), Param(|params| + 1)], params + [v])
    ensures |Numbers(q + [Text(t), Param(|params| + 1)])| == |Numbers(q)| + 1
    ensures Bind(q + [Text(t), Param(|params| + 1)], params + [v]) == Bind(q, params) + [Text(t), Value(v)]
  {
    AppendText(q, params, t);
    AppendNextParam(q + [Text(t)], params, v);
    assert q + [Text(t)] + [Param(|params| + 1)] == q + [Text(t), Param(|params| + 1)];
  }

  // ---------------------------------------------------------------------
  // GET /api/products
  // ---------------------------------------------------------------------

  /** The query-string filters `category`, `search`, `minPrice` and `maxPrice`
      (absent ones are None). */
  datatype ProductFilters = ProductFilters(
    category: Option<string>, search: Option<string>,
    minPrice: Option<string>, maxPrice: Option<string>)

  predicate FiltersCategory(f: ProductFilters) {
    StringTruthy(f.category) && f.category.value != "All"
  }

  function CategoryPart(f: ProductFilters): Query {
    if FiltersCategory(f) then [Text(" AND category = "), Value(f.category.value)] else []
  }

  /** Name or description contains the term, case-insensitively. */
  function SearchPart(pattern: string): Query {
    [Text(" AND (name ILIKE "), Value(pattern), Text(" OR description ILIKE "), Value(pattern), Text(")")]
  }

  function OptionalSearchPart(f: ProductFilters): Query {
    if StringTruthy(f.search) then SearchPart("%" + f.search.value + "%") else []
  }

  function SearchCondition(n: nat): Query {
    [Text(" AND (name ILIKE "), Param(n), Text(" OR description ILIKE "), Param(n), Text(")")]
  }

  function MinPricePart(f: ProductFilters): Query {
    if StringTruthy(f.minPrice) then [Text(" AND price >= "), Value(f.minPrice.value)] else []
  }

  function MaxPricePart(f: ProductFilters): Query {
    if StringTruthy(f.maxPrice) then [Text(" AND price <= "), Value(f.maxPrice.value)] else []
  }

  /** The product list query with its values written in place: a condition per
      present filter, newest first. */
  function ProductListSql(f: ProductFilters): Query {
    [Text("SELECT * FROM products WHERE 1=1")]
    + CategoryPart(f)
    + OptionalSearchPart(f)
    + MinPricePart(f)
    + MaxPricePart(f)
    + [Text(" ORDER BY created_at DESC")]
  }

  /** The search condition: one parameter, referenced twice. */
  lemma AppendSearch(q: Query, params: seq<string>, v: string)
    requires Numbered(q, params)
    ensures Numbered(q + SearchCondition(|params| + 1), params + [v])
    ensures |Numbers(q + SearchCondition(|params| + 1))| == |Numbers(q)| + 2
    ensures Bind(q + SearchCondition(|params| + 1), params + [v]) == Bind(q, params) + SearchPart(v)
  {
    var n := |params| + 1;
    var ps := params + [v];
    var q1 := q + [Text(" AND (name ILIKE "), Param(n)];
    AppendCondition(q, params, " AND (name ILIKE ", v);
    var q2 := q1 + [Text(" OR description ILIKE ")];
    AppendText(q1, ps, " OR description ILIKE ");
    var q3 := q2 + [Param(n)];
    AppendSameParam(q2, ps);
    AppendText(q3, ps, ")");
    assert q3 + [Text(")")] == q + SearchCondition(n);
  }

  /** `query += " <t> $<paramCount>"; params.push(v); paramCount++` */
  method PushCondition(q: Query, params: seq<string>, paramCount: nat, t: string, v: string)
    returns (q': Query, params': seq<string>, paramCount': nat)
    requires Numbered(q, params) && paramCount == |params| + 1
    ensures Numbered(q', params') && paramCount' == |params'| + 1
    ensures q' == q + [Text(t), Param(paramCount)] && params' == params + [v]
    ensures |Numbers(q')| == |Numbers(q)| + 1
    ensures Bind(q', params') == Bind(q, params) + [Text(t), Value(v)]
  {
    AppendCondition(q, params, t, v);
    q' := q + [Text(t), Param(paramCount)];
    params' := params + [v];
    paramCount' := paramCount + 1;
  }

  /** The search condition, whose one parameter is referenced twice. */
  method PushSearch(q: Query, params: seq<string>, paramCount: nat, pattern: string)
    returns (q': Query, params': seq<string>, paramCount': nat)
    requires Numbered(q, params) && paramCount == |params| + 1
    ensures Numbered(q', params') && paramCount' == |params'| + 1
    ensures params' == params + [pattern]
    ensures |Numbers(q')| == |Numbers(q)| + 2
    ensures Bind(q', params') == Bind(q, params) + SearchPart(pattern)
  {
    AppendSearch(q, params, pattern);
    q' := q + SearchCondition(paramCount);
    params' := params + [pattern];
    paramCount' := paramCount + 1;
  }

  /** The `if (category && category !== "All")` block. */
  method AddCategory(q: Query, params: seq<string>, paramCount: nat, f: ProductFilters)
    returns (q': Query, params': seq<string>, paramCount': nat)
    requires Numbered(q, params) && paramCount == |params| + 1
    ensures Numbered(q', params') && paramCount' == |params'| + 1
    ensures |Numbers(q')| - |params'| == |Numbers(q)| - |params|
    ensures Bind(q', params') == Bind(q, params) + CategoryPart(f)
  {
    q', params', paramCount' := q, params, paramCount;
    if FiltersCategory(f) {
      q', params', paramCount' := PushCondition(q, params, paramCount, " AND category = ", f.category.value);
    }
  }

  /** The `if (search)` block. */
  method AddSearch(q: Query, params: seq<string>, paramCount: nat, f: ProductFilters)
    returns (q': Query, params': seq<string>, paramCount': nat)
    requires Numbered(q, params) && paramCount == |params| + 1
    ensures Numbered(q', params') && paramCount' == |params'| + 1
    ensures |Numbers(q')| - |params'| == |Numbers(q)| - |params| + (if StringTruthy(f.search) then 1 else 0)
    ensures Bind(q', params') == Bind(q, params) + OptionalSearchPart(f)
  {
    q', params', paramCount' := q, params, paramCount;
    if StringTruthy(f.search) {
      q', params', paramCount' := PushSearch(q, params, paramCount, "%" + f.search.value + "%");
    }
  }

  /** The `if (minPrice)` block. */
  method AddMinPrice(q: Query, params: seq<string>, paramCount: nat, f: ProductFilters)
    returns (q': Query, params': seq<string>, paramCount': nat)
    requires Numbered(q, params) && paramCount == |params| + 1
    ensures Numbered(q', params') && paramCount' == |params'| + 1
    ensures |Numbers(q')| - |params'| == |Numbers(q)| - |params|
    ensures Bind(q', params') == Bind(q, params) + MinPricePart(f)
  {
    q', params', paramCount' := q, params, paramCount;
    if StringTruthy(f.minPrice) {
      q', params', paramCount' := PushCondition(q, params, paramCount, " AND price >= ", f.minPrice.value);
    }
  }

  /** The `if (maxPrice)` block. */
  method AddMaxPrice(q: Query, params: seq<string>, paramCount: nat, f: ProductFilters)
    returns (q': Query, params': seq<string>, paramCount': nat)
    requires Numbered(q, params) && paramCount == |params| + 1
    ensures Numbered(q', params') && paramCount' == |params'| + 1
    ensures |Numbers(q')| - |params'| == |Numbers(q)| - |params|
    ensures Bind(q', params') == Bind(q, params) + MaxPricePart(f)
  {
    q', params', paramCount' := q, params, paramCount;
    if StringTruthy(f.maxPrice) {
      q', params', paramCount' := PushCondition(q, params, paramCount, " AND price <= ", f.maxPrice.value);
    }
  }

  /** Builds the product list query as the route does: a running `paramCount`,
      one parameter per present filter, and one number shared by the two `ILIKE`s. */
  method ProductListQuery(f: ProductFilters) returns (q: Query, params: seq<string>)
    ensures Numbered(q, params)
    ensures Bind(q, params) == ProductListSql(f)
    ensures |Numbers(q)| == |params| + (if StringTruthy(f.search) then 1 else 0)
    ensures |q| > 0 && q[|q| - 1] == Text(" ORDER BY created_at DESC")
  {
    q := [Text("SELECT * FROM products WHERE 1=1")];
    params := [];
    var paramCount := 1;
    NumbersAppendText([], "SELECT * FROM products WHERE 1=1");
    BindSnoc([], [], Text("SELECT * FROM products WHERE 1=1"));

    q, params, paramCount := AddCategory(q, params, paramCount, f);
    q, params, paramCount := AddSearch(q, params, paramCount, f);
    q, params, paramCount := AddMinPrice(q, params, paramCount, f);
    q, params, paramCount := AddMaxPrice(q, params, paramCount, f);

    AppendText(q, params, " ORDER BY created_at DESC");
    q := q + [Text(" ORDER BY created_at DESC")];
  }

  /** Category "All" filters nothing: it is the same query as no category. */
  lemma CategoryAllIsNoFilter(f: ProductFilters)
    requires f.category == Some("All")
    ensures ProductListSql(f) == ProductListSql(f.(category := None))
  {
  }

  // ---------------------------------------------------------------------
  // PUT /api/admin/orders/:id/status
  // ---------------------------------------------------------------------

  const SetStatusSql: string := "UPDATE orders SET status = "
  const SetUpdatedAtSql: string := ", updated_at = now()"
  const SetTrackingNumberSql: string := ", tracking_number = "
  const SetTrackingUrlSql: string := ", tracking_url = "
  const SetShippedAtSql: string := ", shipped_at = now()"
  const WhereIdSql: string := " WHERE id = "
  const ReturningSql: string := " RETURNING *"

  /** `, <column> = <value>` when the value is truthy, nothing otherwise. */
  function OptionalColumnPart(setText: string, value: Option<string>): Query {
    if StringTruthy(value) then [Text(setText), Value(value.value)] else []
  }

  function ShippedPart(status: string): Query {
    if status == "shipped" then [Text(SetShippedAtSql)] else []
  }

  /** The status update with its values written in place: the new status and a fresh
      `updated_at`, tracking details only when given, `shipped_at` only when the new
      status is "shipped", for the one order named in the path. */
  function AdminStatusSql(status: string, trackingNumber: Option<string>, trackingUrl: Option<string>, id: string): Query {
    [Text(SetStatusSql), Value(status), Text(SetUpdatedAtSql)]
    + OptionalColumnPart(SetTrackingNumberSql, trackingNumber)
    + OptionalColumnPart(SetTrackingUrlSql, trackingUrl)
    + ShippedPart(status)
    + [Text(WhereIdSql), Value(id), Text(ReturningSql)]
  }

  /** A query whose placeholders are exactly 1, 2, ..., |params|, each once. */
  predicate NumberedOnce(q: Query, params: seq<string>) {
    Numbered(q, params) && Numbers(q) == Upto(|params|)
  }

  /** `query += ", <column> = $<paramCount>"` when the value is truthy. */
  method AddOptionalColumn(q: Query, params: seq<string>, paramCount: nat, setText: string, value: Option<string>)
    returns (q': Query, params': seq<string>, paramCount': nat)
    requires NumberedOnce(q, params) && paramCount == |params| + 1
    ensures NumberedOnce(q', params') && paramCount' == |params'| + 1
    ensures params' == params + (if StringTruthy(value) then [value.value] else [])
    ensures |params'| == |params| + (if StringTruthy(value) then 1 else 0)
    ensures |params| > 0 ==> params'[0] == params[0]
    ensures Bind(q', params') == Bind(q, params) + OptionalColumnPart(setText, value)
  {
    q', params', paramCount' := q, params, paramCount;
    if StringTruthy(value) {
      q', params', paramCount' := PushCondition(q, params, paramCount, setText, value.value);
      NumbersAppendText(q, setText);
      NumbersAppendParam(q + [Text(setText)], paramCount);
      assert q + [Text(setText)] + [Param(paramCount)] == q';
    }
  }

  /** `if (status === "shipped") query += ", shipped_at = now()"` */
  method AddShipped(q: Query, params: seq<string>, status: string) returns (q': Query)
    requires NumberedOnce(q, params)
    ensures NumberedOnce(q', params)
    ensures Bind(q', params) == Bind(q, params) + ShippedPart(status)
  {
    q' := q;
    if status == "shipped" {
      AppendText(q, params, SetShippedAtSql);
      q' := q + [Text(SetShippedAtSql)];
    }
  }

  /** `query += " WHERE id = $<paramCount> RETURNING *"; params.push(id)` */
  method AddWhereId(q: Query, params: seq<string>, paramCount: nat, id: string)
    returns (q': Query, params': seq<string>)
    requires NumberedOnce(q, params) && paramCount == |params| + 1
    ensures NumberedOnce(q', params')
    ensures params' == params + [id] && |params'| == |params| + 1 && params'[|params|] == id
    ensures Bind(q', params') == Bind(q, params) + [Text(WhereIdSql), Value(id), Text(ReturningSql)]
  {
    var next;
    q', params', next := PushCondition(q, params, paramCount, WhereIdSql, id);
    NumbersAppendText(q, WhereIdSql);
    NumbersAppendParam(q + [Text(WhereIdSql)], paramCount);
    assert q + [Text(WhereIdSql)] + [Param(paramCount)] == q';
    AppendText(q', params', ReturningSql);
    q' := q' + [Text(ReturningSql)];
  }

  /** `UPDATE orders SET status = $1, updated_at = now()` with `params = [status]`. */
  method StatusPrefix(status: string) returns (q: Query, params: seq<string>)
    ensures NumberedOnce(q, params) && params == [status]
    ensures Bind(q, params) == [Text(SetStatusSql), Value(status), Text(SetUpdatedAtSql)]
  {
    var setStatus := Text(SetStatusSql);
    assert Numbered([], []) && Bind([], []) == [];
    AppendText([], [], setStatus.sql);
    assert [] + [setStatus] == [setStatus];
    AppendNextParam([setStatus], [], status);
    assert [setStatus] + [Param(1)] == [setStatus, Param(1)];
    AppendText([setStatus, Param(1)], [status], SetUpdatedAtSql);
    q := [setStatus, Param(1), Text(SetUpdatedAtSql)];
    params := [status];
    assert [setStatus, Param(1)] + [Text(SetUpdatedAtSql)] == q;
  }

  /** Builds the admin status update as the route does: `$1` is the status, each
      given tracking field takes the next number, and the order id takes the last. */
  method AdminStatusQuery(status: string, trackingNumber: Option<string>, trackingUrl: Option<string>, id: string)
    returns (q: Query, params: seq<string>)
    ensures NumberedOnce(q, params)
    ensures Bind(q, params) == AdminStatusSql(status, trackingNumber, trackingUrl, id)
    ensures |params| >= 2 && params[0] == status && params[|params| - 1] == id
    ensures |params| == 2 + (if StringTruthy(trackingNumber) then 1 else 0) + (if StringTruthy(trackingUrl) then 1 else 0)
  {
    q, params := StatusPrefix(status);
    var paramCount := 2;

    q, params, paramCount := AddOptionalColumn(q, params, paramCount, SetTrackingNumberSql, trackingNumber);
    q, params, paramCount := AddOptionalColumn(q, params, paramCount, SetTrackingUrlSql, trackingUrl);
    q := AddShipped(q, params, status);
    q, params := AddWhereId(q, params, paramCount, id);
  }

  /** `shipped_at` is set exactly when the new status is "shipped". */
  lemma ShippedAtIffShipped(status: string, trackingNumber: Option<string>, trackingUrl: Option<string>, id: string)
    ensures Text(SetShippedAtSql) in AdminStatusSql(status, trackingNumber, trackingUrl, id)
            <==> status == "shipped"
  {
    var q := AdminStatusSql(status, trackingNumber, trackingUrl, id);
    if status != "shipped" {
      assert ShippedPart(status) == [];
      assert SetShippedAtSql != SetStatusSql;
      assert SetShippedAtSql != SetUpdatedAtSql;
      assert SetShippedAtSql != SetTrackingNumberSql;
      assert SetShippedAtSql != SetTrackingUrlSql;
      assert SetShippedAtSql != WhereIdSql;
      assert SetShippedAtSql != ReturningSql;
    }
  }
}
