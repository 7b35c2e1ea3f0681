// GET /api/users: filters the mock user list by search text, role and
// status, then returns one page of it with flat pagination fields.
module UsersRoute {
  import opened Outcomes
  import opened Text
  import opened Seqs
  import opened Paging

  datatype User = User(
    id: string,
    name: string,
    email: string,
    phone: string,
    role: string,
    status: string,
    dateJoined: string,
    avatar: string,
    isVerified: bool)

  /** The query string as the route reads it; a parameter is `None` when it
      is absent, and `page`/`limit` hold the integer `parseInt` produced. */
  datatype UsersQuery = UsersQuery(
    search: Option<string>,
    role: Option<string>,
    status: Option<string>,
    page: Option<int>,
    limit: Option<int>)

  /** The query after defaults are applied. */
  datatype UsersParams = UsersParams(search: string, role: string, status: string, page: int, limit: int)

  /** The response body: the page of users and four flat pagination fields
      (there is no nested `pagination` object). */
  datatype UsersResponse = UsersResponse(
    users: seq<User>,
    totalItems: nat,
    currentPage: int,
    totalPages: nat,
    itemsPerPage: int)

  /** `searchParams.get(name) || fallback`: an absent or empty parameter
      takes the fallback. */
  function ParamOr(v: Option<string>, fallback: string): string {
    if v.Some? && v.value != "" then v.value else fallback
  }

  function ParseQuery(q: UsersQuery): UsersParams {
    UsersParams(
      ParamOr(q.search, ""),
      ParamOr(q.role, "all"),
      ParamOr(q.status, "all"),
      q.page.GetOr(1),
      q.limit.GetOr(10))
  }

  const NoQuery := UsersQuery(None, None, None, None, None)

  /** With no query parameters the route searches for nothing, keeps every
      role and status, and serves page 1 of 10. */
  lemma DefaultParams()
    ensures ParseQuery(NoQuery) == UsersParams("", "all", "all", 1, 10)
  {
  }

  /** Name or email contain the search text ignoring case, or the phone
      contains it exactly. */
  predicate MatchesSearch(u: User, search: string) {
    Contains(ToLower(u.name), ToLower(search))
    || Contains(ToLower(u.email), ToLower(search))
    || Contains(u.phone, search)
  }

  function SearchFilter(search: string): User -> bool {
    (u: User) => MatchesSearch(u, search)
  }

  function RoleFilter(role: string): User -> bool {
    (u: User) => u.role == role
  }

  function StatusFilter(status: string): User -> bool {
    (u: User) => u.status == status
  }

  /** The three filters the route applies one after the other, each only
      when its parameter is active. */
  function FilterUsers(users: seq<User>, p: UsersParams): seq<User> {
    var bySearch := FilterIf(users, p.search != "", SearchFilter(p.search));
    var byRole := FilterIf(bySearch, p.role != "all", RoleFilter(p.role));
    FilterIf(byRole, p.status != "all", StatusFilter(p.status))
  }

  /** A user passes every active filter. */
  predicate MatchesAll(u: User, p: UsersParams) {
    (p.search == "" || MatchesSearch(u, p.search))
    && (p.role == "all" || u.role == p.role)
    && (p.status == "all" || u.status == p.status)
  }

  function MatchesAllFilter(p: UsersParams): User -> bool {
    (u: User) => MatchesAll(u, p)
  }

  /** `GET /api/users`. */
  function Get(users: seq<User>, q: UsersQuery): UsersResponse
    requires ParseQuery(q).page >= 1 && ParseQuery(q).limit >= 1
  {
    var p := ParseQuery(q);
    var filtered := FilterUsers(users, p);
    UsersResponse(
      Page(filtered, p.page, p.limit),
      |filtered|,
      p.page,
      CeilDiv(|filtered|, p.limit),
      p.limit)
  }

  /** The filter pipeline is one filter by the conjunction of the active
      conditions: it keeps exactly the matching users, in mock-list order. */
  lemma FilterUsersIsOneFilter(users: seq<User>, p: UsersParams)
    ensures FilterUsers(users, p) == Filter(users, MatchesAllFilter(p))
  {
    var a1 := (u: User) => p.search == "" || MatchesSearch(u, p.search);
    var a2 := (u: User) => p.role == "all" || u.role == p.role;
    var a3 := (u: User) => p.status == "all" || u.status == p.status;
    var a12 := (u: User) => a1(u) && a2(u);
    var bySearch := FilterIf(users, p.search != "", SearchFilter(p.search));
    FilterIfAsFilter(users, p.search != "", SearchFilter(p.search), a1);
    var byRole := FilterIf(bySearch, p.role != "all", RoleFilter(p.role));
    FilterIfAsFilter(bySearch, p.role != "all", RoleFilter(p.role), a2);
    FilterFilter(users, a1, a2, a12);
    assert byRole == Filter(users, a12);
    FilterIfAsFilter(byRole, p.status != "all", StatusFilter(p.status), a3);
    FilterFilter(users, a12, a3, MatchesAllFilter(p));
  }

  /** A user is in the filtered list exactly when it is in the mock list and
      matches every active filter; the filtered list keeps mock-list order. */
  lemma FilterUsersSpec(users: seq<User>, p: UsersParams)
    ensures forall u :: u in FilterUsers(users, p) <==> u in users && MatchesAll(u, p)
    ensures IsSubsequence(FilterUsers(users, p), users)
  {
    FilterUsersIsOneFilter(users, p);
    FilterMembers(users, MatchesAllFilter(p));
    FilterIsSubsequence(users, MatchesAllFilter(p));
  }

  /** With no search and both filters at "all", the filtered list is the
      mock list itself. */
  lemma NoFilterKeepsAll(users: seq<User>, p: UsersParams)
    requires p.search == "" && p.role == "all" && p.status == "all"
    ensures FilterUsers(users, p) == users
  {
  }

  /** Every returned user is in the mock list and matches every active
      filter. */
  lemma GetMatches(users: seq<User>, q: UsersQuery)
    requires ParseQuery(q).page >= 1 && ParseQuery(q).limit >= 1
    ensures forall k :: 0 <= k < |Get(users, q).users| ==>
              Get(users, q).users[k] in users && MatchesAll(Get(users, q).users[k], ParseQuery(q))
  {
    var p := ParseQuery(q);
    var filtered := FilterUsers(users, p);
    FilterUsersSpec(users, p);
    PageWindow(filtered, p.page, p.limit);
    var r := Get(users, q);
    forall k | 0 <= k < |r.users| ensures r.users[k] in users && MatchesAll(r.users[k], p) {
      assert r.users[k] == filtered[PageStart(p.page, p.limit) + k];
    }
  }

  /** The page of a response: at most `limit` users of the filtered list,
      starting at `(page - 1) * limit`, empty exactly when it lies past the
      last page; the requested page and limit are echoed. */
  lemma GetPaging(users: seq<User>, q: UsersQuery)
    requires ParseQuery(q).page >= 1 && ParseQuery(q).limit >= 1
    ensures var p, r := ParseQuery(q), Get(users, q);
      && r.users == Page(FilterUsers(users, p), p.page, p.limit)
      && |r.users| <= p.limit
      && (r.users == [] <==> p.page > r.totalPages)
      && r.currentPage == p.page && r.itemsPerPage == p.limit
  {
    var p := ParseQuery(q);
    var filtered := FilterUsers(users, p);
    PageFacts(filtered, p.page, p.limit);
  }

  /** The totals of a response: `totalItems` is the length of the filtered
      list and `totalPages` the least number of pages of `limit` that holds
      it, 0 when nothing matches. */
  lemma GetTotals(users: seq<User>, q: UsersQuery)
    requires ParseQuery(q).page >= 1 && ParseQuery(q).limit >= 1
    ensures var p, r := ParseQuery(q), Get(users, q);
      && r.totalItems == |FilterUsers(users, p)|
      && LeastPageCount(r.totalPages, r.totalItems, p.limit)
  {
    var p, r := ParseQuery(q), Get(users, q);
    PageCount(r.totalPages, r.totalItems, p.limit);
  }

  /** `totalItems` counts exactly the users matching every active filter. */
  lemma GetTotalItems(users: seq<User>, q: UsersQuery)
    requires ParseQuery(q).page >= 1 && ParseQuery(q).limit >= 1
    ensures Get(users, q).totalItems == |Filter(users, MatchesAllFilter(ParseQuery(q)))|
  {
    FilterUsersIsOneFilter(users, ParseQuery(q));
  }

  /** The response with its paging fields nested under `pagination`, the
      shape every list view of the dashboard reads. */
  datatype PagedUsersResponse = PagedUsersResponse(users: seq<User>, pagination: PageInfo)

  /** `GET /api/users` answering with a nested `pagination` object holding
      the same four values. */
  function GetPaged(users: seq<User>, q: UsersQuery): (r: PagedUsersResponse)
    requires ParseQuery(q).page >= 1 && ParseQuery(q).limit >= 1
    ensures r.users == Get(users, q).users
    ensures r.pagination.totalItems == Get(users, q).totalItems
    ensures r.pagination.itemsPerPage == ParseQuery(q).limit
    ensures r.pagination.currentPage == ParseQuery(q).page
    ensures LeastPageCount(r.pagination.totalPages, r.pagination.totalItems, ParseQuery(q).limit)
  {
    GetTotals(users, q);
    var flat := Get(users, q);
    PagedUsersResponse(flat.users, PageInfo(flat.currentPage, flat.totalPages, flat.totalItems, flat.itemsPerPage))
  }
}
