// components/verification/VerificationTable.tsx: the identity-verification
// requests. The query cache holds one response per page; approving or
// rejecting a request rewrites the status of its rows in the cached response
// of the current page and closes the details dialog.
module VerificationTable {
  import opened Outcomes

  datatype VerificationUser = VerificationUser(
    name: string,
    email: string,
    phone: Option<string>,
    avatar: Option<string>)

  /** A request; the fixture is cast without checks, so `status` is any
      string, not only "pending", "approved" or "rejected". */
  datatype VerificationRequest = VerificationRequest(
    id: string,
    user: VerificationUser,
    nin: string,
    submittedAt: string,
    status: string)

  datatype VerificationResponse = VerificationResponse(
    data: seq<VerificationRequest>,
    totalPages: int,
    currentPage: int)

  /** The mock `queryFn`: every request whatever the page, one page, the
      requested page echoed. */
  function MockQuery(requests: seq<VerificationRequest>, page: int): (r: VerificationResponse)
    ensures r.data == requests && r.totalPages == 1 && r.currentPage == page
  {
    VerificationResponse(requests, 1, page)
  }

  /** `data.map(req => req.id === id ? { ...req, status } : req)`. */
  function SetStatus(rows: seq<VerificationRequest>, id: string, status: string): seq<VerificationRequest>
  {
    if rows == [] then []
    else [if rows[0].id == id then rows[0].(status := status) else rows[0]] + SetStatus(rows[1..], id, status)
  }

  /** The rows keep their number and order; a row with the id gets the new
      status and keeps every other field; any other row is unchanged. */
  lemma {:induction false} SetStatusSpec(rows: seq<VerificationRequest>, id: string, status: string)
    ensures var r := SetStatus(rows, id, status);
      && |r| == |rows|
      && (forall k :: 0 <= k < |rows| && rows[k].id == id ==> r[k] == rows[k].(status := status))
      && (forall k :: 0 <= k < |rows| && rows[k].id != id ==> r[k] == rows[k])
    decreases |rows|
  {
    if rows != [] {
      SetStatusSpec(rows[1..], id, status);
      var r := SetStatus(rows, id, status);
      forall k | 1 <= k < |rows|
        ensures r[k] == SetStatus(rows[1..], id, status)[k - 1]
      {
      }
    }
  }

  /** Every row with the id ends with the new status, the ids are those of
      the input in order, and the update only ever touches `status`. */
  lemma SetStatusShape(rows: seq<VerificationRequest>, id: string, status: string)
    ensures var r := SetStatus(rows, id, status);
      && |r| == |rows|
      && (forall k :: 0 <= k < |r| ==> r[k].id == rows[k].id)
      && (forall k :: 0 <= k < |r| && r[k].id == id ==> r[k].status == status)
      && (forall k :: 0 <= k < |r| ==> r[k].(status := rows[k].status) == rows[k])
  {
    SetStatusSpec(rows, id, status);
  }

  /** Applying the same decision twice is applying it once. */
  lemma SetStatusIdempotent(rows: seq<VerificationRequest>, id: string, status: string)
    ensures SetStatus(SetStatus(rows, id, status), id, status) == SetStatus(rows, id, status)
  {
    var once := SetStatus(rows, id, status);
    SetStatusSpec(rows, id, status);
    SetStatusSpec(once, id, status);
    var twice := SetStatus(once, id, status);
    assert |twice| == |once|;
    forall k | 0 <= k < |once|
      ensures twice[k] == once[k]
    {
      if rows[k].id == id {
        assert once[k].id == id;
      }
    }
  }

  /** A request id that is not in the rows leaves them as they were. */
  lemma SetStatusAbsent(rows: seq<VerificationRequest>, id: string, status: string)
    requires forall k :: 0 <= k < |rows| ==> rows[k].id != id
    ensures SetStatus(rows, id, status) == rows
  {
    SetStatusSpec(rows, id, status);
  }

  /** The `setQueryData` updater: no entry stays no entry; otherwise the
      spread keeps `totalPages` and `currentPage` and rewrites `data`. */
  function UpdateEntry(oldData: Option<VerificationResponse>, id: string, status: string): Option<VerificationResponse>
  {
    if oldData.None? then oldData
    else Some(oldData.value.(data := SetStatus(oldData.value.data, id, status)))
  }

  /** The cache after `setQueryData(["verification-requests", page], ...)`:
      only the entry of that page may change, and only when it exists. */
  function UpdateCache(cache: map<int, VerificationResponse>, page: int, id: string, status: string): map<int, VerificationResponse>
  {
    if page in cache then cache[page := UpdateEntry(Some(cache[page]), id, status).value] else cache
  }

  /** No entry for the page: nothing changes. Otherwise the keys stay the
      same, every other page's entry is untouched, the page's entry keeps its
      `totalPages` and `currentPage`, and its rows are the status update of
      the old rows. */
  lemma UpdateCacheSpec(cache: map<int, VerificationResponse>, page: int, id: string, status: string)
    ensures page !in cache ==> UpdateCache(cache, page, id, status) == cache
    ensures UpdateEntry(None, id, status) == None
    ensures var c := UpdateCache(cache, page, id, status);
      && c.Keys == cache.Keys
      && (forall p :: p in cache && p != page ==> c[p] == cache[p])
      && (page in cache ==>
            && c[page].totalPages == cache[page].totalPages
            && c[page].currentPage == cache[page].currentPage
            && c[page].data == SetStatus(cache[page].data, id, status))
  {
  }

  /** Repeating a decision leaves the cache as the first one left it. */
  lemma UpdateCacheIdempotent(cache: map<int, VerificationResponse>, page: int, id: string, status: string)
    ensures var once := UpdateCache(cache, page, id, status);
      UpdateCache(once, page, id, status) == once
  {
    if page in cache {
      SetStatusIdempotent(cache[page].data, id, status);
    }
  }

  /** The badge text: "Approved", "Rejected", and "Pending Review" for any
      other status. */
  function StatusBadge(status: string): (text: string)
    ensures text == "Approved" <==> status == "approved"
    ensures text == "Rejected" <==> status == "rejected"
    ensures text == "Pending Review" <==> status != "approved" && status != "rejected"
  {
    match status
    case "approved" => "Approved"
    case "rejected" => "Rejected"
    case _ => "Pending Review"
  }

  /** The pager's figures: `data?.totalPages || 1` and
      `data?.data.length || 0`, ten per page. */
  datatype PagerFigures = PagerFigures(totalPages: int, totalItems: int, itemsPerPage: int)

  function PagerOf(data: Option<VerificationResponse>): (r: PagerFigures)
    ensures r.totalPages != 0 && r.itemsPerPage == 10
    ensures data.None? ==> r == PagerFigures(1, 0, 10)
    ensures data.Some? ==> r.totalItems == |data.value.data|
    ensures data.Some? && data.value.totalPages != 0 ==> r.totalPages == data.value.totalPages
  {
    if data.None? then PagerFigures(1, 0, 10)
    else PagerFigures(if data.value.totalPages == 0 then 1 else data.value.totalPages, |data.value.data|, 10)
  }

  class VerificationTable {
    var page: int
    var cache: map<int, VerificationResponse>
    var selectedRequest: Option<VerificationRequest>
    var isDetailsOpen: bool

    /** Page 1, nothing cached, no request selected, dialog closed. */
    constructor()
      ensures page == 1 && cache == map[] && selectedRequest == None && !isDetailsOpen
    {
      page := 1;
      cache := map[];
      selectedRequest := None;
      isDetailsOpen := false;
    }

    /** The response the table shows: the cached entry of its page, if any. */
    function Data(): Option<VerificationResponse>
      reads this
    {
      if page in cache then Some(cache[page]) else None
    }

    /** The query for the current page settles with the mock answer. */
    method QuerySettled(requests: seq<VerificationRequest>)
      modifies this
      ensures cache == old(cache)[old(page) := MockQuery(requests, old(page))]
      ensures page == old(page) && selectedRequest == old(selectedRequest) && isDetailsOpen == old(isDetailsOpen)
      ensures Data() == Some(MockQuery(requests, page))
    {
      cache := cache[page := MockQuery(requests, page)];
    }

    /** `handleReview`: select the request and open the dialog. */
    method HandleReview(request: VerificationRequest)
      modifies this
      ensures selectedRequest == Some(request) && isDetailsOpen
      ensures page == old(page) && cache == old(cache)
    {
      selectedRequest := Some(request);
      isDetailsOpen := true;
    }

    /** Approve or reject: rewrite the page's cached rows, close the dialog. */
    method Decide(id: string, status: string)
      modifies this
      ensures cache == UpdateCache(old(cache), old(page), id, status)
      ensures !isDetailsOpen
      ensures page == old(page) && selectedRequest == old(selectedRequest)
    {
      if page in cache {
        var entry := cache[page];
        cache := cache[page := entry.(data := SetStatus(entry.data, id, status))];
      }
      isDetailsOpen := false;
    }

    /** `handleApprove`. */
    method HandleApprove(id: string)
      modifies this
      ensures cache == UpdateCache(old(cache), old(page), id, "approved")
      ensures !isDetailsOpen
      ensures page == old(page) && selectedRequest == old(selectedRequest)
    {
      Decide(id, "approved");
    }

    /** `handleReject`. */
    method HandleReject(id: string)
      modifies this
      ensures cache == UpdateCache(old(cache), old(page), id, "rejected")
      ensures !isDetailsOpen
      ensures page == old(page) && selectedRequest == old(selectedRequest)
    {
      Decide(id, "rejected");
    }

    /** `onOpenChange={setIsDetailsOpen}`. */
    method SetDetailsOpen(open: bool)
      modifies this
      ensures isDetailsOpen == open
      ensures page == old(page) && cache == old(cache) && selectedRequest == old(selectedRequest)
    {
      isDetailsOpen := open;
    }

    /** `onPageChange={setPage}`: the cache is kept, so a page visited before
        shows its cached rows, decisions included. */
    method SetPage(p: int)
      modifies this
      ensures page == p
      ensures cache == old(cache) && selectedRequest == old(selectedRequest) && isDetailsOpen == old(isDetailsOpen)
    {
      page := p;
    }
  }

  /** After loading page 1 and approving request `id`, the table shows every
      request, one page, with exactly the rows of that id approved. */
  lemma ApproveAfterLoad(requests: seq<VerificationRequest>, id: string)
    ensures var shown := UpdateCache(map[1 := MockQuery(requests, 1)], 1, id, "approved")[1];
      && shown.totalPages == 1 && shown.currentPage == 1
      && |shown.data| == |requests|
      && (forall k :: 0 <= k < |requests| ==>
            (shown.data[k].status == "approved" <==> requests[k].id == id || requests[k].status == "approved"))
      && (forall k :: 0 <= k < |requests| && requests[k].id == id ==> StatusBadge(shown.data[k].status) == "Approved")
  {
    SetStatusSpec(requests, id, "approved");
  }
}
