// components/bookings/bookings-table.tsx: the bookings list with its own
// page, search and status state, the request it sends, the status badge
// lookup and the CSV export of the rows on screen.
module BookingsTable {
  import opened Outcomes
  import opened Text
  import opened Seqs
  import opened Paging
  import opened QueryParams
  import opened BookingsRoute

  /** The query key `["bookings", currentPage, searchQuery, statusFilter]`. */
  datatype BookingsQueryKey = BookingsQueryKey(page: int, search: string, status: string)

  /** `fetchBookings`: `new URLSearchParams({page, limit: "10", search,
      status})`, every parameter sent even when empty or "all". */
  function FetchParams(page: int, search: string, status: string): seq<(string, string)> {
    [("page", IntToString(page)), ("limit", "10"), ("search", search), ("status", status)]
  }

  /** Each of the four parameters reads back as sent. */
  lemma FetchLookups(page: int, search: string, status: string)
    ensures var es := FetchParams(page, search, status);
      && Lookup(es, "page") == Some(IntToString(page))
      && Lookup(es, "limit") == Some("10")
      && Lookup(es, "search") == Some(search)
      && Lookup(es, "status") == Some(status)
  {
    var es := FetchParams(page, search, status);
    LookupAt(es, 0);
    LookupAt(es, 1);
    LookupAt(es, 2);
    LookupAt(es, 3);
  }

  /** The query the bookings route receives from a list of parameters. */
  function RouteQuery(es: seq<(string, string)>): BookingsQuery {
    BookingsQuery(
      ParseIntParam(Lookup(es, "page")),
      ParseIntParam(Lookup(es, "limit")),
      Lookup(es, "search"),
      Lookup(es, "status"))
  }

  /** The route reads the request as the table's page, limit 10, the
      lower-cased search and the status ("all" when empty). Sending the
      empty search and the "all" status gives the very response that
      leaving them out would. */
  lemma RouteReadsFetch(bookings: seq<Booking>, page: int, search: string, status: string)
    requires page >= 1
    ensures var q := RouteQuery(FetchParams(page, search, status));
      && PageParam(q) == page && LimitParam(q) == 10
      && SearchParam(q) == ToLower(search)
      && StatusParam(q) == (if status == "" then "all" else status)
    ensures search == "" && status == "all" ==>
              BookingsRoute.Get(bookings, RouteQuery(FetchParams(page, search, status)))
              == BookingsRoute.Get(bookings, BookingsQuery(Some(page), Some(10), None, None))
  {
    ParsePageParam(page);
    FetchLookups(page, search, status);
  }

  /** `STATUS_CONFIG[status]?.label`: `getStatusBadge` renders nothing for a
      status without an entry. */
  function StatusLabel(status: string): (r: Option<string>)
    ensures r.Some? <==> status == "upcoming" || status == "completed" || status == "cancelled"
  {
    if status == "upcoming" then Some("Upcoming")
    else if status == "completed" then Some("Completed")
    else if status == "cancelled" then Some("Cancelled")
    else None
  }

  /** `data?.pagination ?? DEFAULT_PAGINATION`. */
  function PaginationOf(data: Option<BookingsResponse>): PageInfo {
    if data.Some? then data.value.pagination else DefaultPageInfo
  }

  /** `data?.bookings ?? []`. */
  function BookingsOf(data: Option<BookingsResponse>): seq<Booking> {
    if data.Some? then data.value.bookings else []
  }

  const CsvPrefix := "data:text/csv;charset=utf-8,"

  const CsvHeaders := ["Booking ID", "Tour", "User", "Guide", "Date", "Participants", "Amount", "Status"]

  /** One exported row; `dateText` is the locale's `toLocaleDateString`. */
  function CsvRow(b: Booking, dateText: string -> string): seq<string> {
    [b.id, b.tourName, b.userName, b.guideName, dateText(b.date),
     IntToString(b.participants), IntToString(b.amount), b.status]
  }

  /** The header line, then one line per booking, each joined with ','. */
  function CsvLines(bookings: seq<Booking>, dateText: string -> string): seq<string> {
    [Join(CsvHeaders, ",")]
    + seq(|bookings|, i requires 0 <= i < |bookings| => Join(CsvRow(bookings[i], dateText), ","))
  }

  /** `csvContent`: the data-URI prefix, then the lines joined with '\n'. */
  function CsvContent(bookings: seq<Booking>, dateText: string -> string): string {
    CsvPrefix + Join(CsvLines(bookings, dateText), "\n")
  }

  /** `handleExportCSV`: exports the rows of the loaded page, if any. */
  function Export(data: Option<BookingsResponse>, dateText: string -> string): Option<string> {
    if data.Some? then Some(CsvContent(data.value.bookings, dateText)) else None
  }

  /** Neither separator occurs in a field. */
  predicate PlainField(f: string) {
    ',' !in f && '\n' !in f
  }

  lemma {:induction false} JoinAvoids(xs: seq<string>, sep: string, c: char)
    requires c !in sep
    requires forall k :: 0 <= k < |xs| ==> c !in xs[k]
    ensures c !in Join(xs, sep)
    decreases |xs|
  {
    if |xs| > 1 {
      JoinAvoids(xs[1..], sep, c);
    }
  }

  lemma NumberIsPlain(n: int)
    ensures PlainField(IntToString(n))
  {
    var s := IntToString(n);
    assert forall k :: 0 <= k < |s| ==> s[k] != ',' && s[k] != '\n';
  }

  /** No text field of a booking holds ',' or '\n'. */
  predicate PlainBooking(b: Booking, dateText: string -> string) {
    PlainField(b.id) && PlainField(b.tourName) && PlainField(b.userName)
    && PlainField(b.guideName) && PlainField(dateText(b.date)) && PlainField(b.status)
  }

  lemma RowIsPlain(b: Booking, dateText: string -> string)
    requires PlainBooking(b, dateText)
    ensures forall k :: 0 <= k < |CsvRow(b, dateText)| ==> PlainField(CsvRow(b, dateText)[k])
    ensures '\n' !in Join(CsvRow(b, dateText), ",")
  {
    NumberIsPlain(b.participants);
    NumberIsPlain(b.amount);
    JoinAvoids(CsvRow(b, dateText), ",", '\n');
  }

  lemma HeaderFieldsPlain()
    ensures forall k :: 0 <= k < |CsvHeaders| ==> PlainField(CsvHeaders[k])
  {
    assert PlainField("Booking ID") && PlainField("Tour") && PlainField("User") && PlainField("Guide");
    assert PlainField("Date") && PlainField("Participants") && PlainField("Amount") && PlainField("Status");
  }

  lemma HeaderIsPlain()
    ensures forall k :: 0 <= k < |CsvHeaders| ==> PlainField(CsvHeaders[k])
    ensures '\n' !in Join(CsvHeaders, ",")
  {
    HeaderFieldsPlain();
    JoinAvoids(CsvHeaders, ",", '\n');
  }

  /** When no text field holds ',' or '\n', the export reads back: after
      the prefix come `|bookings| + 1` lines, the header and then each
      booking's eight fields in order. */
  lemma CsvReadsBack(bookings: seq<Booking>, dateText: string -> string)
    requires forall i :: 0 <= i < |bookings| ==> PlainBooking(bookings[i], dateText)
    ensures CsvContent(bookings, dateText)[..|CsvPrefix|] == CsvPrefix
    ensures var lines := Split(CsvContent(bookings, dateText)[|CsvPrefix|..], '\n');
      && |lines| == |bookings| + 1
      && Split(lines[0], ',') == CsvHeaders
      && forall i :: 0 <= i < |bookings| ==> Split(lines[i + 1], ',') == CsvRow(bookings[i], dateText)
  {
    var lines := CsvLines(bookings, dateText);
    HeaderIsPlain();
    forall j | 0 <= j < |lines| ensures '\n' !in lines[j] {
      if j > 0 {
        RowIsPlain(bookings[j - 1], dateText);
      }
    }
    assert CsvContent(bookings, dateText)[|CsvPrefix|..] == Join(lines, "\n");
    SplitJoin(lines, '\n');
    SplitJoin(CsvHeaders, ',');
    forall i | 0 <= i < |bookings| ensures Split(lines[i + 1], ',') == CsvRow(bookings[i], dateText) {
      RowIsPlain(bookings[i], dateText);
      SplitJoin(CsvRow(bookings[i], dateText), ',');
    }
  }

  /** Fields are joined without quoting: a tour name holding a comma splits
      its line into nine fields instead of eight. */
  lemma CommaInFieldAddsColumn(b: Booking, dateText: string -> string, a: string, c: string)
    requires b.tourName == a + "," + c && ',' !in a && ',' !in c
    requires PlainField(b.id) && PlainField(b.userName) && PlainField(b.guideName)
    requires PlainField(dateText(b.date)) && PlainField(b.status)
    ensures |Split(Join(CsvRow(b, dateText), ","), ',')| == 9
  {
    var row := CsvRow(b, dateText);
    var split := [b.id, a, c] + row[2..];
    NumberIsPlain(b.participants);
    NumberIsPlain(b.amount);
    assert Join(row[1..], ",") == b.tourName + "," + Join(row[2..], ",");
    assert Join(split[1..], ",") == a + "," + (c + "," + Join(row[2..], ","));
    assert Join(row, ",") == Join(split, ",");
    SplitJoin(split, ',');
  }

  /** The export holds the loaded page only: with the route's response for
      a query, it has one line per booking on that page, at most `limit`. */
  lemma ExportHoldsLoadedPage(all: seq<Booking>, q: BookingsQuery, dateText: string -> string)
    requires PageParam(q) >= 1 && LimitParam(q) >= 1
    ensures var r := BookingsRoute.Get(all, q);
      && Export(Some(r), dateText) == Some(CsvContent(r.bookings, dateText))
      && |CsvLines(r.bookings, dateText)| == |r.bookings| + 1 <= LimitParam(q) + 1
    ensures Export(None, dateText) == None
  {
    GetPaging(all, q);
  }

  /** The table shows exactly the page of filtered bookings the route sent,
      and the route's paging figures; with no data yet, no rows and the
      default figures. */
  lemma BookingsViewShowsResponse(all: seq<Booking>, q: BookingsQuery)
    requires PageParam(q) >= 1 && LimitParam(q) >= 1
    ensures var r := BookingsRoute.Get(all, q);
      && BookingsOf(Some(r)) == Page(FilterBookings(all, q), PageParam(q), LimitParam(q))
      && PaginationOf(Some(r)) == r.pagination
    ensures BookingsOf(None) == [] && PaginationOf(None) == DefaultPageInfo
  {
    GetPaging(all, q);
  }

  class BookingsTable {
    var currentPage: int
    var searchQuery: string
    var statusFilter: string

    /** Page 1, no search, every status. */
    constructor()
      ensures currentPage == 1 && searchQuery == "" && statusFilter == "all"
    {
      currentPage := 1;
      searchQuery := "";
      statusFilter := "all";
    }

    function Key(): BookingsQueryKey
      reads this
    {
      BookingsQueryKey(currentPage, searchQuery, statusFilter)
    }

    /** The request `fetchBookings` sends for the current state. */
    function Request(): seq<(string, string)>
      reads this
    {
      FetchParams(currentPage, searchQuery, statusFilter)
    }

    /** `handleSearchChange`: the page is not reset. */
    method HandleSearchChange(value: string)
      modifies this
      ensures searchQuery == value
      ensures currentPage == old(currentPage) && statusFilter == old(statusFilter)
      ensures Request() == FetchParams(old(currentPage), value, old(statusFilter))
    {
      searchQuery := value;
    }

    /** `handleStatusChange`: the page is not reset. */
    method HandleStatusChange(value: string)
      modifies this
      ensures statusFilter == value
      ensures currentPage == old(currentPage) && searchQuery == old(searchQuery)
      ensures Request() == FetchParams(old(currentPage), old(searchQuery), value)
    {
      statusFilter := value;
    }

    /** `onPageChange: setCurrentPage`. */
    method SetPage(page: int)
      modifies this
      ensures currentPage == page
      ensures searchQuery == old(searchQuery) && statusFilter == old(statusFilter)
    {
      currentPage := page;
    }
  }

  /** Narrowing the search while on a later page keeps that page: with ten
      matching bookings on page 2, the request still asks for page 2, which
      the route answers with no rows. */
  lemma FilterChangeKeepsPage(bookings: seq<Booking>, search: string)
    requires |bookings| == 10
    ensures var q := RouteQuery(FetchParams(2, search, "all"));
      PageParam(q) == 2 && LimitParam(q) == 10 && BookingsRoute.Get(bookings, q).bookings == []
  {
    ParsePageParam(2);
    FetchLookups(2, search, "all");
    var q := RouteQuery(FetchParams(2, search, "all"));
    GetPaging(bookings, q);
    GetTotals(bookings, q);
    FilterBookingsSpec(bookings, q);
    assert |FilterBookings(bookings, q)| <= 10;
  }
}
