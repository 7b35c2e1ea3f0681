// components/pagination-component.tsx: the stateless pager shared by the
// list views. It shows the range line and calls `onPageChange` from its
// guarded Previous/Next handlers.
module PaginationComponent {
  import opened Outcomes
  import opened Paging

  datatype PaginationProps = PaginationProps(
    currentPage: int,
    totalPages: int,
    totalItems: int,
    itemsPerPage: int,
    itemLabel: string,
    loading: bool)

  /** The numbers of "Showing {start} to {end} of {totalItems}". */
  datatype RangeText = RangeText(start: int, end: int, total: int)

  /** The range line; the start reads `totalItems === 0 ? 0 : startItem`. */
  function Range(p: PaginationProps): RangeText {
    RangeText(
      if p.totalItems == 0 then 0 else StartItem(p.currentPage, p.itemsPerPage),
      EndItem(p.currentPage, p.itemsPerPage, p.totalItems),
      p.totalItems)
  }

  /** `handlePrevious`: the page passed to `onPageChange`, if it is called. */
  function HandlePrevious(p: PaginationProps): Option<int> {
    if p.currentPage > 1 then Some(p.currentPage - 1) else None
  }

  /** `handleNext`: the page passed to `onPageChange`, if it is called. */
  function HandleNext(p: PaginationProps): Option<int> {
    if p.currentPage < p.totalPages then Some(p.currentPage + 1) else None
  }

  predicate PreviousDisabled(p: PaginationProps) {
    p.currentPage <= 1 || p.loading
  }

  predicate NextDisabled(p: PaginationProps) {
    p.currentPage >= p.totalPages || p.loading
  }

  /** A handler calls `onPageChange` exactly when its button is enabled
      while not loading, and the page it asks for is the neighbouring one;
      starting from a page in `[1, totalPages]` that page is in range too. */
  lemma HandlersSpec(p: PaginationProps)
    ensures HandlePrevious(p).Some? <==> !PreviousDisabled(p.(loading := false))
    ensures HandleNext(p).Some? <==> !NextDisabled(p.(loading := false))
    ensures HandlePrevious(p).Some? ==> HandlePrevious(p).value == p.currentPage - 1
    ensures HandleNext(p).Some? ==> HandleNext(p).value == p.currentPage + 1
    ensures 1 <= p.currentPage <= p.totalPages ==>
              (HandlePrevious(p).Some? ==> 1 <= HandlePrevious(p).value <= p.totalPages)
              && (HandleNext(p).Some? ==> 1 <= HandleNext(p).value <= p.totalPages)
  {
  }

  /** Loading disables both buttons, whatever the page. */
  lemma LoadingDisablesBoth(p: PaginationProps)
    requires p.loading
    ensures PreviousDisabled(p) && NextDisabled(p)
  {
  }

  /** Given the pagination of a server page, the pager's range line counts
      exactly the items that page holds and starts at the first of them; on
      an empty list it reads "Showing 0 to 0". */
  lemma RangeDescribesPage<T>(s: seq<T>, page: int, limit: int, itemLabel: string, loading: bool)
    requires limit >= 1 && page >= 1
    ensures var r := Range(PaginationProps(page, CeilDiv(|s|, limit), |s|, limit, itemLabel, loading));
      && (page <= CeilDiv(|s|, limit) ==>
            r.start >= 1 && |Page(s, page, limit)| == r.end - r.start + 1
            && (forall k :: 0 <= k < |Page(s, page, limit)| ==> Page(s, page, limit)[k] == s[r.start - 1 + k]))
      && (s == [] ==> r.start == 0 && r.end == 0)
  {
    RangeLine(page, limit, |s|);
    if page <= CeilDiv(|s|, limit) {
      RangeMatchesPage(s, page, limit);
    }
  }
}
