// GET /api/transactions: one page of the whole transaction list, nothing
// filtered, with `totalPages` never below 1.
module TransactionsRoute {
  import opened Outcomes
  import opened Seqs
  import opened Paging

  datatype TxType = TourEarnings | Withdrawal

  /** A platform transaction; the optional fields are `undefined` when absent. */
  datatype Transaction = Transaction(
    id: string,
    txType: TxType,
    date: string,
    description: string,
    tourName: Option<string>,
    tourCost: Option<int>,
    platformCommission: Option<int>,
    guideReceives: Option<int>,
    bankAccount: Option<string>,
    amount: int,
    status: string,
    userId: Option<string>)

  datatype TransactionsQuery = TransactionsQuery(page: Option<int>, limit: Option<int>)

  datatype TransactionsResponse = TransactionsResponse(transactions: seq<Transaction>, pagination: PageInfo)

  function PageParam(q: TransactionsQuery): int { q.page.GetOr(1) }

  function LimitParam(q: TransactionsQuery): int { q.limit.GetOr(10) }

  /** `GET /api/transactions`. */
  function Get(all: seq<Transaction>, q: TransactionsQuery): TransactionsResponse
    requires PageParam(q) >= 1 && LimitParam(q) >= 1
  {
    var page, limit := PageParam(q), LimitParam(q);
    TransactionsResponse(
      Page(all, page, limit),
      PageInfo(page, Max(1, CeilDiv(|all|, limit)), |all|, limit))
  }

  /** With no query parameters the route serves page 1 of 10. */
  lemma DefaultParams()
    ensures PageParam(TransactionsQuery(None, None)) == 1
    ensures LimitParam(TransactionsQuery(None, None)) == 10
  {
  }

  /** `totalItems` is the size of the whole list whatever the page;
      `totalPages` is at least 1, is enough pages for every item, and is 1
      or else one page fewer would not be. */
  lemma GetTotals(all: seq<Transaction>, q: TransactionsQuery)
    requires PageParam(q) >= 1 && LimitParam(q) >= 1
    ensures var r, limit := Get(all, q), LimitParam(q);
      && r.pagination.totalItems == |all|
      && r.pagination.totalPages >= 1
      && r.pagination.totalPages * limit >= |all|
      && (r.pagination.totalPages == 1 || (r.pagination.totalPages - 1) * limit < |all|)
  {
    var limit := LimitParam(q);
    CeilDivSpec(|all|, limit);
    var c, tp := CeilDiv(|all|, limit), Get(all, q).pagination.totalPages;
    if c == 0 {
      assert tp == 1 && |all| == 0;
    } else {
      assert tp == c;
    }
  }

  /** The page is the slice from `(page - 1) * limit` with at most `limit`
      items; the requested page is echoed even past the last page, where
      the slice is empty. */
  lemma GetPage(all: seq<Transaction>, q: TransactionsQuery)
    requires PageParam(q) >= 1 && LimitParam(q) >= 1
    ensures var r, page, limit := Get(all, q), PageParam(q), LimitParam(q);
      && r.transactions == Page(all, page, limit)
      && |r.transactions| <= limit
      && (PageStart(page, limit) < |all| ==>
            |r.transactions| == Min(limit, |all| - PageStart(page, limit)))
      && (forall k :: 0 <= k < |r.transactions| ==> r.transactions[k] == all[PageStart(page, limit) + k])
      && r.pagination.currentPage == page && r.pagination.itemsPerPage == limit
      && (page > r.pagination.totalPages ==> r.transactions == [])
      && (r.transactions == [] <==> page > r.pagination.totalPages || all == [])
  {
    var page, limit := PageParam(q), LimitParam(q);
    PageWindow(all, page, limit);
    PageEmptyIff(all, page, limit);
    CeilDivSpec(|all|, limit);
  }

  /** Reading pages 1 to `totalPages` in turn returns every transaction, in
      order, even when there are none. */
  lemma PagesReassemble(all: seq<Transaction>, limit: int)
    requires limit >= 1
    ensures FirstPages(all, limit, Get(all, TransactionsQuery(Some(1), Some(limit))).pagination.totalPages) == all
  {
    CeilDivSpec(|all|, limit);
    if all == [] {
      PageWindow(all, 1, limit);
      assert FirstPages(all, limit, 1) == FirstPages(all, limit, 0) + Page(all, 1, limit);
    } else {
      AllPagesCoverList(all, limit);
    }
  }
}
