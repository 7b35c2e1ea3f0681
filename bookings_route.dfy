// GET /api/bookings: filters a copy of the booking list by status and by a
// lower-cased search text, pages the result, and adds statistics computed
// over the whole, unfiltered list.
module BookingsRoute {
  import opened Outcomes
  import opened Text
  import opened Seqs
  import opened Paging

  datatype Booking = Booking(
    id: string,
    tourName: string,
    userName: string,
    guideName: string,
    date: string,
    participants: int,
    amount: int,
    status: string)

  /** The query string; `page` and `limit` hold what `parseInt` produced. */
  datatype BookingsQuery = BookingsQuery(
    page: Option<int>,
    limit: Option<int>,
    search: Option<string>,
    status: Option<string>)

  datatype BookingStats = BookingStats(totalBookings: nat, upcoming: nat, completed: nat, revenue: int)

  datatype BookingsResponse = BookingsResponse(
    bookings: seq<Booking>,
    pagination: PageInfo,
    stats: BookingStats)

  /** `searchParams.get("search")?.toLowerCase() || ""`. */
  function SearchParam(q: BookingsQuery): string {
    if q.search.Some? then ToLower(q.search.value) else ""
  }

  /** `searchParams.get("status") || "all"`. */
  function StatusParam(q: BookingsQuery): string {
    if q.status.Some? && q.status.value != "" then q.status.value else "all"
  }

  function PageParam(q: BookingsQuery): int { q.page.GetOr(1) }

  function LimitParam(q: BookingsQuery): int { q.limit.GetOr(10) }

  function HasStatus(status: string): Booking -> bool {
    (b: Booking) => b.status == status
  }

  /** The search text (already lower case) occurs in the lower-cased id,
      tour, user or guide name. */
  predicate MatchesSearch(b: Booking, search: string) {
    Contains(ToLower(b.id), search)
    || Contains(ToLower(b.tourName), search)
    || Contains(ToLower(b.userName), search)
    || Contains(ToLower(b.guideName), search)
  }

  function SearchFilter(search: string): Booking -> bool {
    (b: Booking) => MatchesSearch(b, search)
  }

  /** Status first, then search, each only when active. */
  function FilterBookings(bookings: seq<Booking>, q: BookingsQuery): seq<Booking> {
    var byStatus := FilterIf(bookings, StatusParam(q) != "all", HasStatus(StatusParam(q)));
    FilterIf(byStatus, SearchParam(q) != "", SearchFilter(SearchParam(q)))
  }

  function Amount(b: Booking): int { b.amount }

  /** Statistics of the whole booking list. */
  function Stats(bookings: seq<Booking>): BookingStats {
    BookingStats(
      |bookings|,
      |Filter(bookings, HasStatus("upcoming"))|,
      |Filter(bookings, HasStatus("completed"))|,
      Sum(bookings, Amount))
  }

  /** `GET /api/bookings`. */
  function Get(bookings: seq<Booking>, q: BookingsQuery): BookingsResponse
    requires PageParam(q) >= 1 && LimitParam(q) >= 1
  {
    var filtered := FilterBookings(bookings, q);
    var page, limit := PageParam(q), LimitParam(q);
    BookingsResponse(
      Page(filtered, page, limit),
      PageInfo(page, CeilDiv(|filtered|, limit), |filtered|, limit),
      Stats(bookings))
  }

  /** The predicate the two stages amount to together. */
  predicate Survives(b: Booking, q: BookingsQuery) {
    && (StatusParam(q) == "all" || b.status == StatusParam(q))
    && (SearchParam(q) == "" || MatchesSearch(b, SearchParam(q)))
  }

  function SurvivesFilter(q: BookingsQuery): Booking -> bool {
    (b: Booking) => Survives(b, q)
  }

  /** The two stages are one filter by the conjunction of the active
      conditions. */
  lemma FilterBookingsIsOneFilter(bookings: seq<Booking>, q: BookingsQuery)
    ensures FilterBookings(bookings, q) == Filter(bookings, SurvivesFilter(q))
  {
    var status, search := StatusParam(q), SearchParam(q);
    var a1 := (b: Booking) => status == "all" || b.status == status;
    var a2 := (b: Booking) => search == "" || MatchesSearch(b, search);
    var byStatus := FilterIf(bookings, status != "all", HasStatus(status));
    FilterIfAsFilter(bookings, status != "all", HasStatus(status), a1);
    FilterIfAsFilter(byStatus, search != "", SearchFilter(search), a2);
    FilterFilter(bookings, a1, a2, SurvivesFilter(q));
  }

  /** A booking survives the filters exactly when it is in the list, has the
      requested status (unless "all") and matches the lower-cased search
      (unless empty); the survivors keep their order. */
  lemma FilterBookingsSpec(bookings: seq<Booking>, q: BookingsQuery)
    ensures forall b :: b in FilterBookings(bookings, q) <==> b in bookings && Survives(b, q)
    ensures IsSubsequence(FilterBookings(bookings, q), bookings)
  {
    FilterBookingsIsOneFilter(bookings, q);
    FilterMembers(bookings, SurvivesFilter(q));
    FilterIsSubsequence(bookings, SurvivesFilter(q));
  }

  /** The search is matched against lower-cased fields, so a search that
      differs only in letter case selects the same bookings. */
  lemma SearchIgnoresCase(bookings: seq<Booking>, q1: BookingsQuery, q2: BookingsQuery)
    requires q1.search.Some? && q2.search.Some?
    requires ToLower(q1.search.value) == ToLower(q2.search.value)
    requires StatusParam(q1) == StatusParam(q2)
    ensures FilterBookings(bookings, q1) == FilterBookings(bookings, q2)
  {
  }

  /** The statistics ignore search, status and page: two requests over the
      same list report the same figures, those of the whole list. */
  lemma StatsIgnoreQuery(bookings: seq<Booking>, q1: BookingsQuery, q2: BookingsQuery)
    requires PageParam(q1) >= 1 && LimitParam(q1) >= 1
    requires PageParam(q2) >= 1 && LimitParam(q2) >= 1
    ensures Get(bookings, q1).stats == Get(bookings, q2).stats == Stats(bookings)
  {
  }

  /** No booking is both upcoming and completed, so the two counts never
      exceed the total. */
  lemma UpcomingCompletedBounded(bookings: seq<Booking>)
    ensures Stats(bookings).upcoming + Stats(bookings).completed <= Stats(bookings).totalBookings
  {
    DisjointFilters(bookings, HasStatus("upcoming"), HasStatus("completed"));
  }

  /** The page: at most `limit` bookings of the filtered list, taken in
      order from `(page - 1) * limit`, empty exactly when the page lies past
      the last one; page and limit are echoed. */
  lemma GetPaging(bookings: seq<Booking>, q: BookingsQuery)
    requires PageParam(q) >= 1 && LimitParam(q) >= 1
    ensures var r, filtered := Get(bookings, q), FilterBookings(bookings, q);
      && r.bookings == Page(filtered, PageParam(q), LimitParam(q))
      && |r.bookings| <= LimitParam(q)
      && 0 <= PageStart(PageParam(q), LimitParam(q))
      && (r.bookings != [] ==> PageStart(PageParam(q), LimitParam(q)) + |r.bookings| <= |filtered|)
      && (forall k :: 0 <= k < |r.bookings| ==>
            r.bookings[k] == filtered[PageStart(PageParam(q), LimitParam(q)) + k])
      && (r.bookings == [] <==> PageParam(q) > r.pagination.totalPages)
      && r.pagination.currentPage == PageParam(q)
      && r.pagination.itemsPerPage == LimitParam(q)
  {
    PageFacts(FilterBookings(bookings, q), PageParam(q), LimitParam(q));
  }

  /** The totals: `totalItems` is the filtered count and `totalPages` the
      least number of pages holding it, which is 0 when nothing matches. */
  lemma GetTotals(bookings: seq<Booking>, q: BookingsQuery)
    requires PageParam(q) >= 1 && LimitParam(q) >= 1
    ensures var r, filtered := Get(bookings, q), FilterBookings(bookings, q);
      && r.pagination.totalItems == |filtered|
      && LeastPageCount(r.pagination.totalPages, |filtered|, LimitParam(q))
  {
    var r := Get(bookings, q);
    PageCount(r.pagination.totalPages, r.pagination.totalItems, LimitParam(q));
  }
}
