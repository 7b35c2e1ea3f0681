// components/users/user-transaction-tab.tsx: a user's transaction history,
// one server page at a time. The component's own state is the current page;
// the query's data and loading flag are inputs to what it renders.
module UserTransactionsTab {
  import opened Outcomes
  import opened Seqs
  import opened Paging
  import opened TransactionsRoute

  /** The query key `["user-transactions", userId, currentPage]`. */
  datatype QueryKey = QueryKey(name: string, userId: string, page: int)

  /** What the tab renders: the blocking loading card, or the table
      (dimmed while a new page loads) with its footer pagination. */
  datatype View =
    | LoadingCard
    | Table(dimmed: bool, rows: seq<Transaction>, pagination: PageInfo)

  /** `data?.transactions || []`. */
  function Rows(data: Option<TransactionsResponse>): seq<Transaction> {
    if data.Some? then data.value.transactions else []
  }

  /** `data?.pagination || {currentPage: 1, totalPages: 1, totalItems: 0,
      itemsPerPage: 10}`. */
  function PaginationOf(data: Option<TransactionsResponse>): PageInfo {
    if data.Some? then data.value.pagination else DefaultPageInfo
  }

  function Render(data: Option<TransactionsResponse>, isLoading: bool): View {
    if isLoading && data.None? then LoadingCard
    else Table(isLoading, Rows(data), PaginationOf(data))
  }

  /** The blocking card appears only while loading with no data; once data
      has arrived, a later load keeps the previous rows and only dims them.
      Without data the table shows no rows and page 1 of 1 of 10. */
  lemma RenderSpec(data: Option<TransactionsResponse>, isLoading: bool)
    ensures Render(data, isLoading).LoadingCard? <==> isLoading && data.None?
    ensures data.Some? ==>
              Render(data, isLoading) == Table(isLoading, data.value.transactions, data.value.pagination)
    ensures !isLoading && data.None? ==>
              Render(data, isLoading) == Table(false, [], PageInfo(1, 1, 0, 10))
  {
  }

  /** The footer's range line, from the pagination the data carries. */
  function FooterRange(pg: PageInfo): (int, int) {
    (ShownStart(pg.currentPage, pg.itemsPerPage, pg.totalItems),
     EndItem(pg.currentPage, pg.itemsPerPage, pg.totalItems))
  }

  /** Before any data the footer reads "Showing 0 to 0 of 0". */
  lemma FooterWithoutData()
    ensures FooterRange(PaginationOf(None)) == (0, 0)
  {
  }

  /** The sign before an amount: `+` for tour earnings, `-` for anything
      else. */
  function AmountPrefix(t: Transaction): (r: string)
    ensures r == "+" || r == "-"
    ensures r == "+" <==> t.txType == TourEarnings
  {
    if t.txType == TourEarnings then "+" else "-"
  }

  class UserTransactionsTab {
    const userId: string
    var currentPage: int

    /** The tab opens on page 1. */
    constructor(userId: string)
      ensures this.userId == userId && currentPage == 1
    {
      this.userId := userId;
      currentPage := 1;
    }

    /** Each user and page pair is its own cache entry. */
    function Key(): QueryKey
      reads this
    {
      QueryKey("user-transactions", userId, currentPage)
    }

    /** `disabled={currentPage === 1}`. */
    predicate PreviousDisabled()
      reads this
    {
      currentPage == 1
    }

    /** `disabled={currentPage >= pagination.totalPages}`. */
    predicate NextDisabled(pagination: PageInfo)
      reads this
    {
      currentPage >= pagination.totalPages
    }

    /** `setCurrentPage(p => Math.max(1, p - 1))`. */
    method Previous()
      modifies this
      ensures currentPage == PreviousPage(old(currentPage))
    {
      currentPage := Max(1, currentPage - 1);
    }

    /** `setCurrentPage(p => Math.min(pagination.totalPages, p + 1))`, with
        the pagination shown when the button is clicked. */
    method Next(pagination: PageInfo)
      modifies this
      ensures currentPage == NextPage(old(currentPage), pagination.totalPages)
    {
      currentPage := Min(pagination.totalPages, currentPage + 1);
    }
  }

  /** From page 1 or later, an enabled button moves exactly one page and
      stays inside `[1, totalPages]`: Next is disabled from the last page
      on, so the `Math.min` setter never moves the page back through it. */
  lemma EnabledButtonsStepByOne(t: UserTransactionsTab, pagination: PageInfo)
    requires t.currentPage >= 1
    ensures !t.PreviousDisabled() ==> PreviousPage(t.currentPage) == t.currentPage - 1 >= 1
    ensures !t.NextDisabled(pagination) ==>
              NextPage(t.currentPage, pagination.totalPages) == t.currentPage + 1 <= pagination.totalPages
  {
  }

  /** Two keys coincide only for the same user and page, so no page of one
      user is ever served from another's cache entry. */
  lemma KeysSeparate(a: UserTransactionsTab, b: UserTransactionsTab)
    ensures a.Key() == b.Key() <==> a.userId == b.userId && a.currentPage == b.currentPage
  {
  }
}
