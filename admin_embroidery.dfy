/** The admin page for embroidery requests: which requests are flagged, the status
    tabs and their counts, the order the list is shown in, the body sent by "Start
    Work", and the inline edit form. */
module AdminEmbroidery {
  import opened Js
  import opened JsString
  import opened Embroidery

  const AllFilter: string := "all"
  const UserRejectionTag: string := "[User Rejection]"

  /** `isRejectedByUser`: cancelled, with notes that are truthy and mention the tag. */
  function IsRejectedByUser(r: Request): (b: bool)
    ensures b ==> r.status == Cancelled && r.adminNotes.Some? && Includes(r.adminNotes.value, UserRejectionTag)
  {
    r.status == Cancelled && StringTruthy(r.adminNotes) && Includes(r.adminNotes.value, UserRejectionTag)
  }

  /** The truthiness test only rules out null notes: an empty note cannot contain
      the tag anyway. */
  lemma RejectedByUserIff(r: Request)
    ensures IsRejectedByUser(r)
        <==> r.status == Cancelled && r.adminNotes.Some? && Includes(r.adminNotes.value, UserRejectionTag)
  {
    if r.adminNotes == Some("") {
      assert |UserRejectionTag| > 0;
      assert !Includes("", UserRejectionTag);
    }
  }

  /** `needsAction`: the card is highlighted. */
  predicate NeedsAction(r: Request) {
    r.status == Pending || r.status == Approved
  }

  // ---------------------------------------------------------------------------
  // Tabs, counts and order

  /** `requests.filter(r => filterStatus === "all" || r.status === filterStatus)` */
  function Visible(rs: seq<Request>, filter: string): (v: seq<Request>)
    ensures |v| <= |rs|
    ensures forall r :: r in v ==> r in rs
  {
    if |rs| == 0 then []
    else if filter == AllFilter || rs[0].status == filter then [rs[0]] + Visible(rs[1..], filter)
    else Visible(rs[1..], filter)
  }

  /** `requests.filter(r => r.status === status).length`, shown on the summary
      cards and the tabs. */
  function CountWithStatus(rs: seq<Request>, status: string): nat {
    if |rs| == 0 then 0
    else (if rs[0].status == status then 1 else 0) + CountWithStatus(rs[1..], status)
  }

  /** The statuses of the requests, in order. */
  function StatusesOf(rs: seq<Request>): (ss: seq<string>)
    ensures |ss| == |rs|
    ensures forall i :: 0 <= i < |rs| ==> ss[i] == rs[i].status
  {
    if |rs| == 0 then [] else [rs[0].status] + StatusesOf(rs[1..])
  }

  /** The "all" tab lists every request. */
  lemma {:induction false} VisibleAll(rs: seq<Request>)
    ensures Visible(rs, AllFilter) == rs
  {
    if |rs| > 0 {
      VisibleAll(rs[1..]);
      assert [rs[0]] + rs[1..] == rs;
    }
  }

  /** Any other tab lists exactly the requests with that status, in their order. */
  lemma {:induction false} VisibleStatus(rs: seq<Request>, filter: string)
    requires filter != AllFilter
    ensures forall r :: r in Visible(rs, filter) <==> r in rs && r.status == filter
  {
    if |rs| > 0 {
      VisibleStatus(rs[1..], filter);
      assert forall r :: r in rs <==> r == rs[0] || r in rs[1..];
    }
  }

  /** A count is the number of occurrences of the status among the requests, and
      the tab of that status lists exactly that many. */
  lemma {:induction false} CountIsOccurrences(rs: seq<Request>, status: string)
    requires status != AllFilter
    ensures CountWithStatus(rs, status) == multiset(StatusesOf(rs))[status]
    ensures |Visible(rs, status)| == CountWithStatus(rs, status)
  {
    if |rs| > 0 {
      CountIsOccurrences(rs[1..], status);
      assert StatusesOf(rs) == [rs[0].status] + StatusesOf(rs[1..]);
      assert multiset(StatusesOf(rs)) == multiset{rs[0].status} + multiset(StatusesOf(rs[1..]));
    }
  }

  /** The list order: approved first, then pending, then the rest. */
  function Rank(r: Request): (k: nat)
    ensures k == 0 <==> r.status == Approved
    ensures k == 1 <==> r.status == Pending
  {
    if r.status == Approved then 0 else if r.status == Pending then 1 else 2
  }

  /** The comparator given to `sort`, as written. */
  function Compare(a: Request, b: Request): int {
    if a.status == Approved && b.status != Approved then -1
    else if a.status != Approved && b.status == Approved then 1
    else if a.status == Pending && b.status != Pending && b.status != Approved then -1
    else if a.status != Pending && b.status == Pending && a.status != Approved then 1
    else b.createdAt - a.createdAt
  }

  /** The highlighted requests are exactly the ones ranked before the rest. */
  lemma NeedsActionIsRanked(r: Request)
    ensures NeedsAction(r) <==> Rank(r) < 2
  {
  }

  /** The comparator orders by rank and then newest first; it is zero only for
      requests of equal rank created at the same time. */
  lemma CompareIsRankThenNewest(a: Request, b: Request)
    ensures Compare(a, b) < 0 <==> Rank(a) < Rank(b) || (Rank(a) == Rank(b) && a.createdAt > b.createdAt)
    ensures Compare(a, b) == 0 <==> Rank(a) == Rank(b) && a.createdAt == b.createdAt
  {
  }

  /** Swapping the arguments negates the result, so the comparator is consistent. */
  lemma CompareAntisymmetric(a: Request, b: Request)
    ensures Compare(a, b) == -Compare(b, a)
  {
  }

  /** The order `sort` establishes with this comparator. */
  predicate Precedes(a: Request, b: Request) {
    Compare(a, b) <= 0
  }

  lemma PrecedesTotalAndTransitive(a: Request, b: Request, c: Request)
    ensures Precedes(a, b) || Precedes(b, a)
    ensures Precedes(a, b) && Precedes(b, c) ==> Precedes(a, c)
  {
    CompareIsRankThenNewest(a, b);
    CompareIsRankThenNewest(b, c);
    CompareIsRankThenNewest(a, c);
  }

  predicate SortedByCompare(rs: seq<Request>) {
    forall i, j :: 0 <= i < j < |rs| ==> Precedes(rs[i], rs[j])
  }

  /** Inserts `x` into a sorted list before the first request it precedes, so
      after every request it ties with. */
  function Insert(x: Request, rs: seq<Request>): (r: seq<Request>)
    requires SortedByCompare(rs)
    ensures multiset(r) == multiset(rs) + multiset{x}
    ensures SortedByCompare(r)
  {
    if |rs| == 0 then [x]
    else if Compare(x, rs[0]) <= 0 then
      PrependSmallest(x, rs);
      [x] + rs
    else
      var tail := Insert(x, rs[1..]);
      SortedTail(rs);
      CompareAntisymmetric(rs[0], x);
      InsertHead(rs, x, tail);
      assert rs == [rs[0]] + rs[1..];
      [rs[0]] + tail
  }

  lemma SortedTail(rs: seq<Request>)
    requires |rs| > 0 && SortedByCompare(rs)
    ensures SortedByCompare(rs[1..])
  {
    forall i, j | 0 <= i < j < |rs[1..]| ensures Precedes(rs[1..][i], rs[1..][j]) {
      assert rs[1..][i] == rs[i + 1] && rs[1..][j] == rs[j + 1];
    }
  }

  lemma InsertHead(rs: seq<Request>, x: Request, tail: seq<Request>)
    requires |rs| > 0 && SortedByCompare(rs) && Compare(rs[0], x) <= 0
    requires SortedByCompare(tail) && multiset(tail) == multiset(rs[1..]) + multiset{x}
    ensures SortedByCompare([rs[0]] + tail)
  {
    var s := [rs[0]] + tail;
    forall j | 0 < j < |s| ensures Precedes(rs[0], s[j]) {
      assert s[j] in multiset(tail);
      if s[j] != x {
        assert s[j] in multiset(rs[1..]);
        var k :| 0 <= k < |rs[1..]| && rs[1..][k] == s[j];
        assert rs[k + 1] == s[j];
      }
    }
    forall i, j | 0 <= i < j < |s| ensures Precedes(s[i], s[j]) {
      if i > 0 {
        assert s[i] == tail[i - 1] && s[j] == tail[j - 1];
      }
    }
  }

  lemma PrependSmallest(x: Request, rs: seq<Request>)
    requires |rs| > 0 && SortedByCompare(rs) && Compare(x, rs[0]) <= 0
    ensures SortedByCompare([x] + rs)
  {
    var s := [x] + rs;
    forall j | 0 < j < |s| ensures Precedes(x, s[j]) {
      if j > 1 {
        assert s[j] == rs[j - 1];
        PrecedesTotalAndTransitive(x, rs[0], rs[j - 1]);
      }
    }
    forall i, j | 0 <= i < j < |s| ensures Precedes(s[i], s[j]) {
      if i > 0 {
        assert s[i] == rs[i - 1] && s[j] == rs[j - 1];
      }
    }
  }

  /** The list as shown: the same requests, approved first, then pending, then the
      rest, each group newest first. */
  function SortRequests(rs: seq<Request>): (r: seq<Request>)
    ensures multiset(r) == multiset(rs)
    ensures SortedByCompare(r)
  {
    if |rs| == 0 then []
    else
      assert rs == [rs[0]] + rs[1..];
      Insert(rs[0], SortRequests(rs[1..]))
  }

  /** Sorted by the comparator means grouped by rank, newest first within a rank. */
  lemma SortedMeansRankThenNewest(rs: seq<Request>, i: nat, j: nat)
    requires SortedByCompare(rs) && i < j < |rs|
    ensures Rank(rs[i]) <= Rank(rs[j])
    ensures Rank(rs[i]) == Rank(rs[j]) ==> rs[i].createdAt >= rs[j].createdAt
  {
    CompareIsRankThenNewest(rs[i], rs[j]);
  }

  /** Two requests the comparator cannot tell apart: same rank, same date. */
  predicate Tie(a: Request, b: Request) {
    Rank(a) == Rank(b) && a.createdAt == b.createdAt
  }

  /** The requests of `rs` that tie with `y`, in their order in `rs`. */
  function Ties(rs: seq<Request>, y: Request): seq<Request> {
    if |rs| == 0 then []
    else (if Tie(rs[0], y) then [rs[0]] else []) + Ties(rs[1..], y)
  }

  lemma {:induction false} InsertTies(x: Request, rs: seq<Request>, y: Request)
    requires SortedByCompare(rs)
    ensures Ties(Insert(x, rs), y) == (if Tie(x, y) then [x] else []) + Ties(rs, y)
  {
    if |rs| == 0 {
    } else if Compare(x, rs[0]) <= 0 {
      assert ([x] + rs)[1..] == rs;
    } else {
      SortedTail(rs);
      InsertTies(x, rs[1..], y);
      CompareIsRankThenNewest(x, rs[0]);
      assert ([rs[0]] + Insert(x, rs[1..]))[1..] == Insert(x, rs[1..]);
    }
  }

  /** `Array.prototype.sort` is stable: requests the comparator ranks equal keep
      the order in which the server listed them. */
  lemma {:induction false} SortKeepsTiedOrder(rs: seq<Request>, y: Request)
    ensures Ties(SortRequests(rs), y) == Ties(rs, y)
  {
    if |rs| > 0 {
      SortKeepsTiedOrder(rs[1..], y);
      InsertTies(rs[0], SortRequests(rs[1..]), y);
    }
  }

  // ---------------------------------------------------------------------------
  // Start Work

  /** The JSON body of a `PUT /api/admin/embroidery/requests/:id`. */
  datatype UpdateBody = UpdateBody(status: string, designCost: int, adminNotes: string)

  /** `requests.find(r => r.id === id)` */
  function FindById(rs: seq<Request>, id: string): (r: Option<Request>)
    ensures r.Some? ==> r.value in rs && r.value.id == id
    ensures r.None? ==> forall x :: x in rs ==> x.id != id
  {
    if |rs| == 0 then None
    else if rs[0].id == id then Some(rs[0])
    else FindById(rs[1..], id)
  }

  /** `find(...)?.design_cost || 0` */
  function CostOrZero(found: Option<Request>): int {
    if found.Some? && found.value.designCost.Some? && found.value.designCost.value != 0 then found.value.designCost.value
    else 0
  }

  /** `find(...)?.admin_notes || ''` */
  function NotesOrEmpty(found: Option<Request>): string {
    if found.Some? && StringTruthy(found.value.adminNotes) then found.value.adminNotes.value
    else ""
  }

  /** `handleStartWork`'s body. */
  function StartWorkBody(rs: seq<Request>, id: string): (body: UpdateBody)
    ensures body.status == InProgress
  {
    var found := FindById(rs, id);
    UpdateBody(InProgress, CostOrZero(found), NotesOrEmpty(found))
  }

  /** Start Work keeps the request's quote and notes as they were (a null cost
      becomes 0, null notes become empty); an id not in the list sends 0 and "". */
  lemma StartWorkKeepsQuote(rs: seq<Request>, id: string, r: Request)
    requires FindById(rs, id) == Some(r)
    ensures StartWorkBody(rs, id) == UpdateBody(InProgress, r.designCost.GetOr(0), r.adminNotes.GetOr(""))
  {
  }

  lemma StartWorkUnknownId(rs: seq<Request>, id: string)
    requires forall x :: x in rs ==> x.id != id
    ensures StartWorkBody(rs, id) == UpdateBody(InProgress, 0, "")
  {
  }

  // ---------------------------------------------------------------------------
  // The page's state

  class AdminEmbroideryPage {
    var requests: seq<Request>
    var loading: bool
    var editingId: Option<string>
    var designCost: string
    var status: string
    var adminNotes: string
    var filterStatus: string

    constructor ()
      ensures requests == [] && loading && editingId == None
      ensures designCost == "" && status == "" && adminNotes == "" && filterStatus == AllFilter
    {
      requests := [];
      loading := true;
      editingId := None;
      designCost := "";
      status := "";
      adminNotes := "";
      filterStatus := AllFilter;
    }

    /** `fetchRequests`: `data` is `None` when the request fails. */
    method Fetch(data: Option<seq<Request>>)
      modifies this
      ensures !loading && requests == (if data.Some? then data.value else old(requests))
      ensures editingId == old(editingId) && designCost == old(designCost) && status == old(status)
      ensures adminNotes == old(adminNotes) && filterStatus == old(filterStatus)
    {
      if data.Some? {
        requests := data.value;
      }
      loading := false;
    }

    /** The list under the current tab, in display order. */
    function Listed(): (shown: seq<Request>)
      reads this
      ensures SortedByCompare(shown)
      ensures multiset(shown) == multiset(Visible(requests, filterStatus))
    {
      SortRequests(Visible(requests, filterStatus))
    }

    /** `handleEdit`: the form takes the request's values; a cost is printed,
        a null cost or null notes become empty. */
    method HandleEdit(request: Request)
      modifies this
      ensures editingId == Some(request.id) && status == request.status
      ensures designCost == (if request.designCost.Some? then IntToString(request.designCost.value) else "")
      ensures adminNotes == request.adminNotes.GetOr("")
      ensures requests == old(requests) && loading == old(loading) && filterStatus == old(filterStatus)
    {
      editingId := Some(request.id);
      designCost := if request.designCost.Some? then IntToString(request.designCost.value) else "";
      status := request.status;
      adminNotes := StringOr(request.adminNotes, "");
    }

    /** `handleCancel`: the form is closed and emptied. */
    method HandleCancel()
      modifies this
      ensures editingId == None && designCost == "" && status == "" && adminNotes == ""
      ensures requests == old(requests) && loading == old(loading) && filterStatus == old(filterStatus)
    {
      editingId := None;
      designCost := "";
      status := "";
      adminNotes := "";
    }

    method SetFilter(filter: string)
      modifies this
      ensures filterStatus == filter
      ensures requests == old(requests) && loading == old(loading) && editingId == old(editingId)
      ensures designCost == old(designCost) && status == old(status) && adminNotes == old(adminNotes)
    {
      filterStatus := filter;
    }
  }
}
