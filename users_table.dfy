// components/users/users-table.tsx: the users list. Its filters are props
// from the page; its own state is the current page. The query function
// builds the request parameters step by step, and the pager appears only
// when there is more than one page of users.
module UsersTable {
  import opened Outcomes
  import opened Text
  import opened Seqs
  import opened Paging
  import opened QueryParams
  import opened UsersRoute
  import PaginationComponent

  /** The query key `["users", searchQuery, roleFilter, statusFilter, currentPage]`. */
  datatype UsersQueryKey = UsersQueryKey(search: string, role: string, status: string, page: int)

  /** The parsed body as the table reads it: `users` and the nested
      `pagination` object, either of which may be missing. */
  datatype UsersBody = UsersBody(users: Option<seq<User>>, pagination: Option<PageInfo>)

  /** The JSON `GET /api/users` sends, as the table sees it: the users, and
      no `pagination` key, since the route's paging fields are top-level. */
  function BodyOf(r: UsersResponse): UsersBody {
    UsersBody(Some(r.users), None)
  }

  /** The JSON of a route that nests its paging fields. */
  function PagedBodyOf(r: PagedUsersResponse): UsersBody {
    UsersBody(Some(r.users), Some(r.pagination))
  }

  /** `data?.users || []`. */
  function UsersOf(data: Option<UsersBody>): seq<User> {
    if data.Some? && data.value.users.Some? then data.value.users.value else []
  }

  /** `data?.pagination || {1, 1, 0, 10}`. */
  function PaginationOf(data: Option<UsersBody>): PageInfo {
    if data.Some? && data.value.pagination.Some? then data.value.pagination.value else DefaultPageInfo
  }

  /** `pagination.totalItems > pagination.itemsPerPage`. */
  predicate ShowsPager(pg: PageInfo) {
    pg.totalItems > pg.itemsPerPage
  }

  /** The parameters the query function sends, in the order it sets them:
      page and limit always, each filter only when it is active. */
  function RequestParams(search: string, role: string, status: string, page: int): seq<(string, string)> {
    [("page", IntToString(page)), ("limit", "10")]
    + (if search != "" then [("search", search)] else [])
    + (if role != "all" then [("role", role)] else [])
    + (if status != "all" then [("status", status)] else [])
  }

  /** `page` and `limit=10` are always present; `search` only when
      non-empty, `role` and `status` only when not "all". */
  lemma RequestParamsSpec(search: string, role: string, status: string, page: int)
    ensures var es := RequestParams(search, role, status, page);
      && Lookup(es, "page") == Some(IntToString(page))
      && Lookup(es, "limit") == Some("10")
      && Lookup(es, "search") == (if search != "" then Some(search) else None)
      && Lookup(es, "role") == (if role != "all" then Some(role) else None)
      && Lookup(es, "status") == (if status != "all" then Some(status) else None)
  {
    var a := [("page", IntToString(page)), ("limit", "10")];
    var b := if search != "" then [("search", search)] else [];
    var c := if role != "all" then [("role", role)] else [];
    var d := if status != "all" then [("status", status)] else [];
    LookupAbsent(a, "search");
    LookupAbsent(a, "role");
    LookupAbsent(b, "role");
    LookupAbsent(a, "status");
    LookupAbsent(b, "status");
    LookupAbsent(c, "status");
    LookupsIn(a, b, c, d, "page");
    LookupsIn(a, b, c, d, "limit");
    LookupsIn(a, b, c, d, "search");
    LookupsIn(a, b, c, d, "role");
    LookupsIn(a, b, c, d, "status");
  }

  lemma LookupsIn(a: seq<(string, string)>, b: seq<(string, string)>, c: seq<(string, string)>, d: seq<(string, string)>, name: string)
    ensures Lookup(a + b + c + d, name) ==
      if Lookup(a, name).Some? then Lookup(a, name)
      else if Lookup(b, name).Some? then Lookup(b, name)
      else if Lookup(c, name).Some? then Lookup(c, name)
      else Lookup(d, name)
  {
    LookupAppend(a + b + c, d, name);
    LookupAppend(a + b, c, name);
    LookupAppend(a, b, name);
  }

  /** The query the route receives from a list of parameters. */
  function RouteQuery(es: seq<(string, string)>): UsersQuery {
    UsersQuery(
      Lookup(es, "search"),
      Lookup(es, "role"),
      Lookup(es, "status"),
      ParseIntParam(Lookup(es, "page")),
      ParseIntParam(Lookup(es, "limit")))
  }

  /** Leaving out an inactive filter is harmless: the route reads the
      request back as exactly the table's filters, page and limit 10. An
      empty role or status is sent, and read by the route as "all". */
  lemma RouteReadsRequest(search: string, role: string, status: string, page: int)
    requires page >= 1
    ensures ParseQuery(RouteQuery(RequestParams(search, role, status, page))) ==
              UsersParams(search, if role == "" then "all" else role, if status == "" then "all" else status, page, 10)
  {
    var es := RequestParams(search, role, status, page);
    RequestParamsSpec(search, role, status, page);
    ParsePageParam(page);
  }

  /** `formatRole`. */
  function FormatRole(role: string): (r: string)
    ensures r == "Tour Guide" || r == "Traveler"
    ensures r == "Tour Guide" <==> role == "tour-guide"
  {
    if role == "tour-guide" then "Tour Guide" else "Traveler"
  }

  /** `formatStatus`: the first character upper-cased, the rest kept. */
  function FormatStatus(status: string): (r: string)
    ensures |r| == |status|
  {
    if status == [] then [] else [UpperChar(status[0])] + status[1..]
  }

  /** `formatStatus` changes at most the first character, into its upper
      case, and formatting twice is formatting once. */
  lemma FormatStatusSpec(status: string)
    ensures status != [] ==> FormatStatus(status)[0] == UpperChar(status[0])
    ensures status != [] ==> FormatStatus(status)[1..] == status[1..]
    ensures FormatStatus(FormatStatus(status)) == FormatStatus(status)
  {
    if status != [] {
      var c := status[0];
      assert UpperChar(UpperChar(c)) == UpperChar(c);
      assert FormatStatus(status)[1..] == status[1..];
    }
  }

  /** `words.map(n => n[0]).join("")`: the first character of each word; an
      empty word gives `undefined`, which joins as nothing. */
  function FirstChars(words: seq<string>): (r: string)
    ensures |r| <= |words|
  {
    if words == [] then []
    else (if words[0] == [] then [] else [words[0][0]]) + FirstChars(words[1..])
  }

  /** The avatar fallback: `name.split(" ").map(n => n[0]).join("").toUpperCase()`. */
  function Initials(name: string): string {
    ToUpper(FirstChars(Split(name, ' ')))
  }

  lemma {:induction false} FirstCharsOfWords(words: seq<string>)
    requires forall k :: 0 <= k < |words| ==> words[k] != []
    ensures FirstChars(words) == seq(|words|, k requires 0 <= k < |words| => words[k][0])
    decreases |words|
  {
    if words != [] {
      FirstCharsOfWords(words[1..]);
    }
  }

  /** For a name made of non-empty words separated by single spaces, the
      fallback is the upper-cased first letter of each word, in order. */
  lemma InitialsOfWords(words: seq<string>)
    requires |words| >= 1
    requires forall k :: 0 <= k < |words| ==> words[k] != [] && ' ' !in words[k]
    ensures Initials(Join(words, " ")) == seq(|words|, k requires 0 <= k < |words| => UpperChar(words[k][0]))
  {
    SplitJoin(words, ' ');
    FirstCharsOfWords(words);
  }

  class UsersTable {
    var searchQuery: string
    var roleFilter: string
    var statusFilter: string
    var currentPage: int

    constructor(searchQuery: string, roleFilter: string, statusFilter: string)
      ensures this.searchQuery == searchQuery && this.roleFilter == roleFilter
      ensures this.statusFilter == statusFilter && currentPage == 1
    {
      this.searchQuery := searchQuery;
      this.roleFilter := roleFilter;
      this.statusFilter := statusFilter;
      currentPage := 1;
    }

    function Key(): UsersQueryKey
      reads this
    {
      UsersQueryKey(searchQuery, roleFilter, statusFilter, currentPage)
    }

    /** The page re-renders with new filter props; the page is not reset. */
    method SetProps(searchQuery: string, roleFilter: string, statusFilter: string)
      modifies this
      ensures this.searchQuery == searchQuery && this.roleFilter == roleFilter
      ensures this.statusFilter == statusFilter && currentPage == old(currentPage)
    {
      this.searchQuery := searchQuery;
      this.roleFilter := roleFilter;
      this.statusFilter := statusFilter;
    }

    /** `onPageChange={setCurrentPage}`. */
    method SetPage(page: int)
      modifies this
      ensures currentPage == page
      ensures searchQuery == old(searchQuery) && roleFilter == old(roleFilter)
      ensures statusFilter == old(statusFilter)
    {
      currentPage := page;
    }

    /** The query function's parameter builder. */
    method BuildParams() returns (params: SearchParams)
      ensures fresh(params)
      ensures params.entries == RequestParams(searchQuery, roleFilter, statusFilter, currentPage)
    {
      params := new SearchParams();
      params.Set("page", IntToString(currentPage));
      params.Set("limit", "10");
      if searchQuery != "" {
        LookupAbsent(params.entries, "search");
        SetParamAppends(params.entries, "search", searchQuery);
        params.Set("search", searchQuery);
      }
      if roleFilter != "all" {
        LookupAbsent(params.entries, "role");
        SetParamAppends(params.entries, "role", roleFilter);
        params.Set("role", roleFilter);
      }
      if statusFilter != "all" {
        LookupAbsent(params.entries, "status");
        SetParamAppends(params.entries, "status", statusFilter);
        params.Set("status", statusFilter);
      }
    }
  }

  /** As written, the table never shows the pager for the users route:
      the route sends no `pagination` object, so the default with 0 items
      applies whatever the route counted. */
  lemma FlatResponseHidesPager(users: seq<User>, q: UsersQuery)
    requires ParseQuery(q).page >= 1 && ParseQuery(q).limit >= 1
    ensures PaginationOf(Some(BodyOf(Get(users, q)))) == DefaultPageInfo
    ensures !ShowsPager(PaginationOf(Some(BodyOf(Get(users, q)))))
    ensures UsersOf(Some(BodyOf(Get(users, q)))) == Page(FilterUsers(users, ParseQuery(q)), ParseQuery(q).page, ParseQuery(q).limit)
    ensures UsersOf(None) == []
  {
    GetPaging(users, q);
  }

  /** Eleven users and no filters: the route counts 11 items, more than one
      page of 10, yet the pager is hidden, so the page can never leave 1 and
      the eleventh user is never shown. */
  lemma ElevenUsersOnePage(u: User)
    ensures var users := seq(11, _ => u);
      && Get(users, NoQuery).totalItems == 11
      && Get(users, NoQuery).totalPages == 2
      && !ShowsPager(PaginationOf(Some(BodyOf(Get(users, NoQuery)))))
  {
    var users := seq(11, _ => u);
    DefaultParams();
    NoFilterKeepsAll(users, ParseQuery(NoQuery));
  }

  /** With the paging fields nested, the pager shows exactly when more
      users match than fit on one page, on whatever page the table is. */
  lemma PagedResponseShowsPager(users: seq<User>, q: UsersQuery)
    requires ParseQuery(q).page >= 1 && ParseQuery(q).limit >= 1
    ensures var p, pg := ParseQuery(q), PaginationOf(Some(PagedBodyOf(GetPaged(users, q))));
      ShowsPager(pg) <==> |FilterUsers(users, p)| > p.limit
  {
    var r := GetPaged(users, q);
    SeveralPages(r.pagination.totalPages, r.pagination.totalItems, ParseQuery(q).limit);
  }

  /** From page 1, once the pager shows, its Next button requests page 2. */
  lemma PagedPagerNextFromFirst(users: seq<User>, q: UsersQuery)
    requires ParseQuery(q).page == 1 && ParseQuery(q).limit >= 1
    ensures var pg := PaginationOf(Some(PagedBodyOf(GetPaged(users, q))));
      ShowsPager(pg) ==>
        PaginationComponent.HandleNext(
          PaginationComponent.PaginationProps(pg.currentPage, pg.totalPages, pg.totalItems, pg.itemsPerPage, "users", false))
        == Some(2)
  {
    var r := GetPaged(users, q);
    SeveralPages(r.pagination.totalPages, r.pagination.totalItems, ParseQuery(q).limit);
  }
}
