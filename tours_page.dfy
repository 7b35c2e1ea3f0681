// app/tours/page.tsx: the tours list, filtered in memory by search text and
// status and shown six tours per page. Changing either filter returns to
// page 1.
module ToursPage {
  import opened Text
  import opened Seqs
  import opened Paging

  datatype Tour = Tour(
    id: string,
    title: string,
    status: string,
    price: int,
    location: string,
    guide: string,
    dates: string,
    bookings: int,
    image: string)

  /** `ITEMS_PER_PAGE`. */
  const ItemsPerPage := 6

  /** The status filter's "no filter" value. */
  const AllStatus := "All Status"

  /** The lowercased title, location or guide contains the lowercased
      search text. */
  predicate MatchesSearch(t: Tour, search: string) {
    var q := ToLower(search);
    Contains(ToLower(t.title), q) || Contains(ToLower(t.location), q) || Contains(ToLower(t.guide), q)
  }

  predicate MatchesStatus(t: Tour, status: string) {
    status == AllStatus || t.status == status
  }

  function Keeps(search: string, status: string): Tour -> bool {
    (t: Tour) => MatchesSearch(t, search) && MatchesStatus(t, status)
  }

  /** `filteredTours`. */
  function FilteredTours(tours: seq<Tour>, search: string, status: string): seq<Tour> {
    Filter(tours, Keeps(search, status))
  }

  /** `Math.ceil(totalItems / ITEMS_PER_PAGE)`. */
  function TotalPages(filtered: seq<Tour>): nat {
    CeilDiv(|filtered|, ItemsPerPage)
  }

  /** `paginatedTours`: the slice `[(page - 1) * 6, (page - 1) * 6 + 6)`. */
  function PaginatedTours(filtered: seq<Tour>, page: int): seq<Tour> {
    Page(filtered, page, ItemsPerPage)
  }

  /** A tour is kept iff it matches the search and the status; the kept
      tours keep their order in the tour list. */
  lemma FilteredToursSpec(tours: seq<Tour>, search: string, status: string)
    ensures forall t :: t in FilteredTours(tours, search, status) <==>
              t in tours && MatchesSearch(t, search) && MatchesStatus(t, status)
    ensures IsSubsequence(FilteredTours(tours, search, status), tours)
  {
    FilterMembers(tours, Keeps(search, status));
    FilterIsSubsequence(tours, Keeps(search, status));
  }

  lemma ContainsEmpty(s: string)
    ensures Contains(s, "")
  {
    assert OccursAt(s, "", 0);
  }

  /** An empty search matches every tour, so with "All Status" as well the
      whole list is shown. */
  lemma EmptySearchKeepsAll(tours: seq<Tour>)
    ensures forall t: Tour :: MatchesSearch(t, "")
    ensures FilteredTours(tours, "", AllStatus) == tours
  {
    forall t: Tour ensures MatchesSearch(t, "") {
      ContainsEmpty(ToLower(t.title));
    }
    FilterAll(tours, Keeps("", AllStatus));
  }

  /** Page `page` holds at most six tours, the ones from index
      `(page - 1) * 6` on; the pager shows exactly when some tour matches,
      and then page 1 is a page it can show. */
  lemma PaginatedToursSpec(filtered: seq<Tour>, page: int)
    requires page >= 1
    ensures |PaginatedTours(filtered, page)| <= ItemsPerPage
    ensures forall k :: 0 <= k < |PaginatedTours(filtered, page)| ==>
              PaginatedTours(filtered, page)[k] == filtered[(page - 1) * ItemsPerPage + k]
    ensures PaginatedTours(filtered, 1) == filtered[..Min(ItemsPerPage, |filtered|)]
    ensures |filtered| > 0 <==> TotalPages(filtered) >= 1
  {
    PageWindow(filtered, page, ItemsPerPage);
    PageWindow(filtered, 1, ItemsPerPage);
    CeilDivSpec(|filtered|, ItemsPerPage);
  }

  class ToursPage {
    const tours: seq<Tour>
    var searchQuery: string
    var statusFilter: string
    var currentPage: int

    /** No search, "All Status", page 1. */
    constructor(tours: seq<Tour>)
      ensures this.tours == tours
      ensures searchQuery == "" && statusFilter == AllStatus && currentPage == 1
    {
      this.tours := tours;
      searchQuery := "";
      statusFilter := AllStatus;
      currentPage := 1;
    }

    function Filtered(): seq<Tour>
      reads this
    {
      FilteredTours(tours, searchQuery, statusFilter)
    }

    function Shown(): seq<Tour>
      reads this
    {
      PaginatedTours(Filtered(), currentPage)
    }

    /** `{totalItems > 0 && <Pagination .../>}`. */
    predicate ShowsPager()
      reads this
    {
      |Filtered()| > 0
    }

    /** `handleSearchChange`: set the search, back to page 1. */
    method HandleSearchChange(query: string)
      modifies this
      ensures searchQuery == query && currentPage == 1
      ensures statusFilter == old(statusFilter)
    {
      searchQuery := query;
      currentPage := 1;
    }

    /** `handleStatusChange`: set the status filter, back to page 1. */
    method HandleStatusChange(status: string)
      modifies this
      ensures statusFilter == status && currentPage == 1
      ensures searchQuery == old(searchQuery)
    {
      statusFilter := status;
      currentPage := 1;
    }

    /** `onPageChange={setCurrentPage}`. */
    method SetPage(page: int)
      modifies this
      ensures currentPage == page
      ensures searchQuery == old(searchQuery) && statusFilter == old(statusFilter)
    {
      currentPage := page;
    }
  }

  /** After any filter change the view is on page 1, which shows the first
      six matching tours; a page out of range is never left behind by a
      filter change. */
  lemma FilterChangeShowsFirstPage(p: ToursPage)
    requires p.currentPage == 1
    ensures p.Shown() == p.Filtered()[..Min(ItemsPerPage, |p.Filtered()|)]
    ensures p.ShowsPager() ==> 1 <= p.currentPage <= TotalPages(p.Filtered())
  {
    PaginatedToursSpec(p.Filtered(), 1);
  }
}
