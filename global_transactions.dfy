// components/transactions/global-transaction.tsx: the platform-wide
// transaction history. The server pages by 50; a tab then filters the rows
// of the loaded page by type, and each row's cells pick what to show.
module GlobalTransactions {
  import opened Outcomes
  import opened Text
  import opened Seqs
  import opened Paging
  import opened TransactionsRoute

  /** The query key `["global-transactions", currentPage]`: the tab is not
      part of it. */
  datatype GlobalQueryKey = GlobalQueryKey(page: int)

  /** `fetchTransactions(page)`: `/api/transactions?page={page}&limit=50`. */
  function RequestFor(page: int): TransactionsQuery {
    TransactionsQuery(Some(page), Some(50))
  }

  // extractUser: `description.match(/Tourist: (.*?)\)/)?.[1] ?? "Unknown User"`.

  const Marker := "Tourist: "

  /** The characters `.` does not match. */
  predicate LineTerminator(c: char) {
    c == '\n' || c == '\r' || c == ' ' || c == ' '
  }

  /** No line terminator in `s[j..k]`. */
  predicate SingleLine(s: string, j: nat, k: nat)
    requires j <= k <= |s|
  {
    forall m :: j <= m < k ==> !LineTerminator(s[m])
  }

  /** The lazy `(.*?)\)` from index `j`: the first ')' not preceded by a
      line terminator. */
  function CloseFrom(s: string, j: nat): (r: Option<nat>)
    ensures r.Some? ==> j <= r.value < |s|
    decreases |s| - j
  {
    if j >= |s| then None
    else if s[j] == ')' then Some(j)
    else if LineTerminator(s[j]) then None
    else CloseFrom(s, j + 1)
  }

  /** The capture of the leftmost match starting at index `i` or later. */
  function MatchFrom(s: string, i: nat): Option<string>
    decreases |s| - i
  {
    if i + |Marker| > |s| then None
    else if OccursAt(s, Marker, i) && CloseFrom(s, i + |Marker|).Some? then
      Some(s[i + |Marker|..CloseFrom(s, i + |Marker|).value])
    else MatchFrom(s, i + 1)
  }

  /** `extractUser`. */
  function ExtractUser(t: Transaction): string {
    if t.txType == Withdrawal then "Jason Chapel"
    else MatchFrom(t.description, 0).GetOr("Unknown User")
  }

  /** `k` closes a match whose capture starts at `j`. */
  predicate Closes(s: string, j: nat, k: nat) {
    j <= k < |s| && s[k] == ')' && SingleLine(s, j, k)
  }

  /** The pattern matches with "Tourist: " at `p` and the ')' at `k`. */
  predicate MatchAt(s: string, p: nat, k: nat) {
    OccursAt(s, Marker, p) && Closes(s, p + |Marker|, k)
  }

  /** The pattern matches at `p` with capture `u`, a capture the lazy
      group can take: it holds no ')'. */
  predicate CaptureAt(s: string, p: nat, u: string) {
    MatchAt(s, p, p + |Marker| + |u|)
    && s[p + |Marker|..p + |Marker| + |u|] == u
    && ')' !in u
  }

  lemma {:induction false} CloseFromSpec(s: string, j: nat)
    ensures CloseFrom(s, j).Some? ==>
              Closes(s, j, CloseFrom(s, j).value) && ')' !in s[j..CloseFrom(s, j).value]
    ensures CloseFrom(s, j).None? ==> forall k: nat :: !Closes(s, j, k)
    decreases |s| - j
  {
    if j < |s| && s[j] != ')' && !LineTerminator(s[j]) {
      CloseFromSpec(s, j + 1);
      if CloseFrom(s, j).Some? {
        var k := CloseFrom(s, j).value;
        assert s[j..k] == [s[j]] + s[j + 1..k];
      } else {
        forall k: nat ensures !Closes(s, j, k) {
          if j < k < |s| {
            assert !Closes(s, j + 1, k);
            assert SingleLine(s, j, k) ==> SingleLine(s, j + 1, k);
          }
        }
      }
    } else if j < |s| && s[j] == ')' {
      assert s[j..j] == [];
    }
  }

  /** The match found from `i` is the capture at the leftmost index
      `p >= i` where the pattern matches; no match is found exactly when the
      pattern matches nowhere from `i`. */
  lemma {:induction false} MatchFromSpec(s: string, i: nat)
    ensures MatchFrom(s, i).Some? ==>
              exists p: nat :: i <= p && CaptureAt(s, p, MatchFrom(s, i).value)
                && forall p': nat, k: nat :: i <= p' < p ==> !MatchAt(s, p', k)
    ensures MatchFrom(s, i).None? ==> forall p: nat, k: nat :: i <= p ==> !MatchAt(s, p, k)
    decreases |s| - i
  {
    if i + |Marker| > |s| {
    } else {
      var j := i + |Marker|;
      CloseFromSpec(s, j);
      if OccursAt(s, Marker, i) && CloseFrom(s, j).Some? {
        var u := MatchFrom(s, i).value;
        assert CaptureAt(s, i, u);
      } else {
        MatchFromSpec(s, i + 1);
        assert forall k: nat :: !MatchAt(s, i, k) by {
          assert CloseFrom(s, j).None? || !OccursAt(s, Marker, i);
        }
        if MatchFrom(s, i).None? {
          assert forall p: nat, k: nat :: i <= p ==> !MatchAt(s, p, k);
        } else {
          var u := MatchFrom(s, i).value;
          var p: nat :| i + 1 <= p && CaptureAt(s, p, u)
                         && forall p': nat, k: nat :: i + 1 <= p' < p ==> !MatchAt(s, p', k);
          assert forall p': nat, k: nat :: i <= p' < p ==> !MatchAt(s, p', k);
        }
      }
    }
  }

  /** At a given index the capture is determined: it runs up to the first
      ')' after the marker. */
  lemma CaptureUnique(s: string, p: nat, u: string, v: string)
    requires CaptureAt(s, p, u) && CaptureAt(s, p, v)
    ensures u == v
  {
  }

  /** A withdrawal is always Jason Chapel's. Otherwise the user is a
      capture of the pattern in the description, holding no ')' and no line
      break; it is "Unknown User" exactly when the description has no
      "Tourist: " followed, on the same line, by a ')'. */
  lemma ExtractUserSpec(t: Transaction)
    ensures t.txType == Withdrawal ==> ExtractUser(t) == "Jason Chapel"
    ensures t.txType == TourEarnings && MatchFrom(t.description, 0).Some? ==>
              exists p: nat :: CaptureAt(t.description, p, ExtractUser(t))
                && forall p': nat, k: nat :: p' < p ==> !MatchAt(t.description, p', k)
    ensures t.txType == TourEarnings && MatchFrom(t.description, 0).None? ==>
              ExtractUser(t) == "Unknown User"
              && forall p: nat, k: nat :: !MatchAt(t.description, p, k)
  {
    MatchFromSpec(t.description, 0);
    if t.txType == TourEarnings && MatchFrom(t.description, 0).Some? {
      assert ExtractUser(t) == MatchFrom(t.description, 0).value;
    }
  }

  lemma {:induction false} CloseFromName(name: string, rest: string, j: nat)
    requires j <= |name|
    requires ')' !in name
    requires forall m :: 0 <= m < |name| ==> !LineTerminator(name[m])
    ensures CloseFrom(name + ")" + rest, j) == Some(|name|)
    decreases |name| - j
  {
    var s := name + ")" + rest;
    if j < |name| {
      assert s[j] == name[j];
      CloseFromName(name, rest, j + 1);
    } else {
      assert s[j] == ')';
    }
  }

  /** A description that starts with "Tourist: " and a one-line name
      without ')' followed by ')' yields that name. */
  lemma ExtractsLeadingName(t: Transaction, name: string, rest: string)
    requires t.txType == TourEarnings && t.description == Marker + name + ")" + rest
    requires ')' !in name && forall m :: 0 <= m < |name| ==> !LineTerminator(name[m])
    ensures ExtractUser(t) == name
  {
    var s := t.description;
    var tail := name + ")" + rest;
    assert s == Marker + tail;
    assert OccursAt(s, Marker, 0);
    CloseFromName(name, rest, 0);
    CloseShift(Marker, tail, 0);
    assert s[|Marker|..|Marker| + |name|] == name;
  }

  /** Scanning for ')' after a prefix is scanning the rest, shifted. */
  lemma {:induction false} CloseShift(a: string, t: string, j: nat)
    ensures CloseFrom(a + t, |a| + j) == Shift(CloseFrom(t, j), |a|)
    decreases |t| - j
  {
    var s := a + t;
    if j < |t| {
      assert s[|a| + j] == t[j];
      if t[j] != ')' && !LineTerminator(t[j]) {
        CloseShift(a, t, j + 1);
      }
    }
  }

  /** `activeTab` as a filter: "all" keeps every row, "bookings" the tour
      earnings, anything else the withdrawals. */
  function TabFilter(items: seq<Transaction>, activeTab: string): seq<Transaction> {
    if activeTab == "all" then items
    else
      var typeFilter := if activeTab == "bookings" then TourEarnings else Withdrawal;
      Filter(items, (t: Transaction) => t.txType == typeFilter)
  }

  /** Each tab keeps exactly the rows of its type, in their order, and the
      bookings and withdrawals tabs split the loaded rows between them. */
  lemma TabFilterSpec(items: seq<Transaction>, activeTab: string)
    ensures activeTab == "all" ==> TabFilter(items, activeTab) == items
    ensures forall t :: t in TabFilter(items, "bookings") <==> t in items && t.txType == TourEarnings
    ensures forall t :: t in TabFilter(items, "withdrawals") <==> t in items && t.txType == Withdrawal
    ensures IsSubsequence(TabFilter(items, activeTab), items)
    ensures |TabFilter(items, "bookings")| + |TabFilter(items, "withdrawals")| == |items|
  {
    var isBooking := (t: Transaction) => t.txType == TourEarnings;
    var isWithdrawal := (t: Transaction) => t.txType == Withdrawal;
    FilterMembers(items, isBooking);
    FilterMembers(items, isWithdrawal);
    FilterComplement(items, isBooking, isWithdrawal);
    if activeTab == "all" {
      SubsequenceOfSelf(items);
    } else if activeTab == "bookings" {
      FilterIsSubsequence(items, isBooking);
    } else {
      FilterIsSubsequence(items, isWithdrawal);
    }
  }

  /** `data?.transactions ?? []`. */
  function RowsOf(data: Option<TransactionsResponse>): seq<Transaction> {
    if data.Some? then data.value.transactions else []
  }

  /** `data?.pagination ?? DEFAULT_PAGINATION`. */
  function PaginationOf(data: Option<TransactionsResponse>): PageInfo {
    if data.Some? then data.value.pagination else DefaultPageInfo
  }

  /** `paginationConfig`: the server's page numbers, but the filtered row
      count as the total. */
  function PagerConfig(data: Option<TransactionsResponse>, activeTab: string): PageInfo {
    var pg := PaginationOf(data);
    PageInfo(pg.currentPage, pg.totalPages, |TabFilter(RowsOf(data), activeTab)|, pg.itemsPerPage)
  }

  /** With the route's answer for a page, the table shows rows of that page
      of 50 only, and the pager counts those rows rather than the
      transactions on the server. */
  lemma TabFilterOnLoadedPage(all: seq<Transaction>, page: int, activeTab: string)
    requires page >= 1
    ensures var data := Some(TransactionsRoute.Get(all, RequestFor(page)));
      && IsSubsequence(TabFilter(RowsOf(data), activeTab), Page(all, page, 50))
      && PagerConfig(data, activeTab).totalItems <= 50
      && PagerConfig(data, activeTab).totalItems == |TabFilter(RowsOf(data), activeTab)|
      && PagerConfig(data, activeTab).totalPages == TransactionsRoute.Get(all, RequestFor(page)).pagination.totalPages
  {
    var rows := Page(all, page, 50);
    PageWindow(all, page, 50);
    TabFilterSpec(rows, activeTab);
  }

  /** The amount cell: a tour earning shows its tour cost when it has one,
      every other row its amount. */
  function DisplayAmount(t: Transaction): (r: int)
    ensures t.txType == TourEarnings && t.tourCost.Some? ==> r == t.tourCost.value
    ensures t.txType != TourEarnings || t.tourCost.None? ==> r == t.amount
    ensures r != t.amount ==> t.txType == TourEarnings && t.tourCost == Some(r)
  {
    if t.txType == TourEarnings then t.tourCost.GetOr(t.amount) else t.amount
  }

  /** The commission cell: `None` stands for '-', shown when there is no
      commission or it is 0. */
  function CommissionCell(t: Transaction): (r: Option<int>)
    ensures r.None? <==> t.platformCommission.None? || t.platformCommission.value == 0
    ensures r.Some? ==> r == t.platformCommission
  {
    if t.platformCommission.Some? && t.platformCommission.value != 0 then t.platformCommission else None
  }

  /** The description cell: a tour earning with a non-empty tour name
      shows the name, every other row its description. */
  function DescriptionCell(t: Transaction): (r: string)
    ensures t.txType == TourEarnings && t.tourName.Some? && t.tourName.value != "" ==>
              r == t.tourName.value
    ensures !(t.txType == TourEarnings && t.tourName.Some? && t.tourName.value != "") ==>
              r == t.description
    ensures r != t.description ==> t.txType == TourEarnings && t.tourName == Some(r) && r != ""
  {
    if t.txType == TourEarnings && t.tourName.Some? && t.tourName.value != "" then t.tourName.value
    else t.description
  }

  class GlobalTransactionsTable {
    var currentPage: int
    var activeTab: string

    /** Page 1 of every transaction type. */
    constructor()
      ensures currentPage == 1 && activeTab == "all"
    {
      currentPage := 1;
      activeTab := "all";
    }

    function Key(): GlobalQueryKey
      reads this
    {
      GlobalQueryKey(currentPage)
    }

    /** `handleTabChange`: only the tab changes, so the same page is
        filtered again and nothing is fetched. */
    method HandleTabChange(value: string)
      modifies this
      ensures activeTab == value && currentPage == old(currentPage)
      ensures Key() == old(Key())
    {
      activeTab := value;
    }

    /** `onPageChange: setCurrentPage`. */
    method SetPage(page: int)
      modifies this
      ensures currentPage == page && activeTab == old(activeTab)
    {
      currentPage := page;
    }
  }
}
