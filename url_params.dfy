/** `URLSearchParams` as the WHATWG URL Standard defines it: an ordered list of
    name-value pairs. `get` returns the first value of a name, `set` overwrites the
    first pair of that name and drops the others (or appends when there is none),
    `delete` drops every pair of that name and `append` always adds at the end. */
module UrlSearchParams {
  import opened Js

  type Params = seq<(string, string)>

  function Keys(p: Params): set<string> {
    if p == [] then {} else {p[0].0} + Keys(p[1..])
  }

  /** `params.get(k)`: the value of the first pair named `k`. */
  function Get(p: Params, k: string): (r: Option<string>)
    ensures r.Some? <==> k in Keys(p)
  {
    if p == [] then None else if p[0].0 == k then Some(p[0].1) else Get(p[1..], k)
  }

  /** `params.delete(k)` */
  function Delete(p: Params, k: string): (r: Params)
    ensures Keys(r) == Keys(p) - {k}
    ensures Get(r, k) == None
    ensures forall j :: j != k ==> Get(r, j) == Get(p, j)
  {
    if p == [] then []
    else if p[0].0 == k then Delete(p[1..], k)
    else [p[0]] + Delete(p[1..], k)
  }

  /** `params.append(k, v)` */
  function Append(p: Params, k: string, v: string): Params {
    p + [(k, v)]
  }

  lemma {:induction false} KeysAppend(p: Params, k: string, v: string)
    ensures Keys(Append(p, k, v)) == Keys(p) + {k}
  {
    if p != [] {
      assert Append(p, k, v)[1..] == Append(p[1..], k, v);
      KeysAppend(p[1..], k, v);
    }
  }

  lemma {:induction false} GetAppend(p: Params, k: string, v: string, j: string)
    ensures Get(Append(p, k, v), j) == if j in Keys(p) then Get(p, j) else if j == k then Some(v) else None
  {
    if p != [] {
      assert Append(p, k, v)[1..] == Append(p[1..], k, v);
      GetAppend(p[1..], k, v, j);
    }
  }

  /** The first pair named `k` gets value `v`; the later pairs named `k` are dropped. */
  function ReplaceFirst(p: Params, k: string, v: string): (r: Params)
    requires k in Keys(p)
    ensures Keys(r) == Keys(p)
    ensures Get(r, k) == Some(v)
    ensures forall j :: j != k ==> Get(r, j) == Get(p, j)
  {
    if p[0].0 == k then [(k, v)] + Delete(p[1..], k)
    else [p[0]] + ReplaceFirst(p[1..], k, v)
  }

  /** `params.set(k, v)` */
  function Set(p: Params, k: string, v: string): (r: Params)
    ensures Keys(r) == Keys(p) + {k}
    ensures Get(r, k) == Some(v)
    ensures forall j :: j != k ==> Get(r, j) == Get(p, j)
  {
    if k in Keys(p) then ReplaceFirst(p, k, v)
    else
      KeysAppend(p, k, v);
      forall j ensures Get(Append(p, k, v), j) == if j == k then Some(v) else Get(p, j) {
        GetAppend(p, k, v, j);
      }
      Append(p, k, v)
  }
}
