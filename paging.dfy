// The paging arithmetic every list endpoint and view shares: a page is the
// slice `[(page - 1) * limit, (page - 1) * limit + limit)` of the list, and
// the number of pages is `Math.ceil(total / limit)`.
module Paging {
  import opened Seqs

  /** The nested `pagination` object of the list responses. */
  datatype PageInfo = PageInfo(currentPage: int, totalPages: int, totalItems: int, itemsPerPage: int)

  /** What the views show before any response has arrived: page 1 of 1,
      no items, 10 per page. */
  const DefaultPageInfo := PageInfo(1, 1, 0, 10)

  /** `Math.ceil(n / d)` for a count `n` and a positive page size `d`. */
  function CeilDiv(n: nat, d: nat): nat
    requires d >= 1
  {
    (n + d - 1) / d
  }

  /** `CeilDiv(n, d)` is the least number of pages of `d` items that holds
      `n` items: enough pages, and one page fewer would not be. */
  lemma CeilDivSpec(n: nat, d: nat)
    requires d >= 1
    ensures CeilDiv(n, d) * d >= n
    ensures CeilDiv(n, d) >= 1 ==> (CeilDiv(n, d) - 1) * d < n
    ensures CeilDiv(n, d) == 0 <==> n == 0
  {
    var q := CeilDiv(n, d);
    var r := (n + d - 1) % d;
    assert n + d - 1 == q * d + r && 0 <= r < d;
    if q >= 1 {
      assert (q - 1) * d == q * d - d;
    }
  }

  /** `pages` pages of `d` items hold `n` items and one page fewer would
      not; no items need no pages. */
  predicate LeastPageCount(pages: int, n: int, d: int) {
    && pages * d >= n
    && (pages >= 1 ==> (pages - 1) * d < n)
    && (pages == 0 <==> n == 0)
  }

  /** A value known to be `CeilDiv(n, d)` is the least page count. */
  lemma PageCount(pages: nat, n: nat, d: nat)
    requires d >= 1 && pages == CeilDiv(n, d)
    ensures LeastPageCount(pages, n, d)
  {
    CeilDivSpec(n, d);
  }

  /** More than one page is needed exactly when the items overflow one
      page. */
  lemma SeveralPages(pages: int, n: int, d: int)
    requires d >= 1 && pages >= 0 && LeastPageCount(pages, n, d)
    ensures pages >= 2 <==> n > d
  {
    if pages >= 2 {
      MulMono(1, pages - 1, d);
    } else if pages == 1 {
      assert n <= d;
    }
  }

  lemma MulMono(a: nat, b: nat, d: nat)
    requires a <= b
    ensures a * d <= b * d
  {
  }

  /** The index of the first item of page `page`. */
  function PageStart(page: int, limit: int): int {
    (page - 1) * limit
  }

  /** `list.slice((page - 1) * limit, (page - 1) * limit + limit)`. */
  function Page<T>(s: seq<T>, page: int, limit: int): seq<T>
  {
    JsSlice(s, PageStart(page, limit), PageStart(page, limit) + limit)
  }

  /** A page is the window of at most `limit` items starting at
      `(page - 1) * limit`, cut down to the list; it is empty exactly when
      that start is past the end. */
  lemma PageWindow<T>(s: seq<T>, page: int, limit: int)
    requires page >= 1 && limit >= 1
    ensures PageStart(page, limit) >= 0
    ensures Page(s, page, limit) ==
              s[Min(PageStart(page, limit), |s|)..Min(PageStart(page, limit) + limit, |s|)]
    ensures |Page(s, page, limit)| <= limit
    ensures Page(s, page, limit) == [] <==> PageStart(page, limit) >= |s|
    ensures PageStart(page, limit) < |s| ==>
              |Page(s, page, limit)| == Min(limit, |s| - PageStart(page, limit))
    ensures forall k :: 0 <= k < |Page(s, page, limit)| ==>
              Page(s, page, limit)[k] == s[PageStart(page, limit) + k]
  {
    MulMono(0, page - 1, limit);
    SliceWindow(s, PageStart(page, limit), PageStart(page, limit) + limit);
  }

  /** A page past the last one is empty, and every page up to the last holds
      at least one item. */
  lemma PageEmptyIff<T>(s: seq<T>, page: int, limit: int)
    requires page >= 1 && limit >= 1
    ensures Page(s, page, limit) == [] <==> page > CeilDiv(|s|, limit)
  {
    PageWindow(s, page, limit);
    CeilDivSpec(|s|, limit);
    var q := CeilDiv(|s|, limit);
    if page > q {
      MulMono(q, page - 1, limit);
    } else {
      MulMono(page - 1, q - 1, limit);
    }
  }

  /** Everything a paged response promises, about the page and the page
      count together. */
  lemma PageFacts<T>(s: seq<T>, page: int, limit: int)
    requires page >= 1 && limit >= 1
    ensures var p, pages := Page(s, page, limit), CeilDiv(|s|, limit);
      && |p| <= limit
      && 0 <= PageStart(page, limit)
      && (p != [] ==> PageStart(page, limit) + |p| <= |s|)
      && (forall k :: 0 <= k < |p| ==> p[k] == s[PageStart(page, limit) + k])
      && pages * limit >= |s|
      && (pages >= 1 ==> (pages - 1) * limit < |s|)
      && (pages == 0 <==> |s| == 0)
      && (p == [] <==> page > pages)
  {
    PageWindow(s, page, limit);
    PageEmptyIff(s, page, limit);
    CeilDivSpec(|s|, limit);
  }

  /** Pages 1 to n, concatenated. */
  function FirstPages<T>(s: seq<T>, limit: int, n: nat): seq<T>
  {
    if n == 0 then [] else FirstPages(s, limit, n - 1) + Page(s, n, limit)
  }

  lemma MulPred(n: nat, limit: int)
    requires n >= 1 && limit >= 1
    ensures (n - 1) * limit + limit == n * limit
    ensures 0 <= (n - 1) * limit
  {
  }

  /** The prefix up to `a` followed by the window `[a, a + len)` is the
      prefix up to `a + len`, each cut down to the list. */
  lemma PrefixThenWindow<T>(s: seq<T>, a: nat, len: nat)
    ensures s[..Min(a, |s|)] + JsSlice(s, a, a + len) == s[..Min(a + len, |s|)]
  {
    SliceWindow(s, a, a + len);
    var x, y := Min(a, |s|), Min(a + len, |s|);
    assert s[..x] + s[x..y] == s[..y];
  }

  /** The first n pages are the first n * limit items, in order. */
  lemma {:induction false} FirstPagesPrefix<T>(s: seq<T>, limit: int, n: nat)
    requires limit >= 1
    ensures FirstPages(s, limit, n) == s[..Min(n * limit, |s|)]
  {
    if n > 0 {
      FirstPagesPrefix(s, limit, n - 1);
      MulPred(n, limit);
      PrefixThenWindow(s, (n - 1) * limit, limit);
    }
  }

  /** Reading every page from 1 to `CeilDiv(|s|, limit)` returns the whole
      list, in order. */
  lemma AllPagesCoverList<T>(s: seq<T>, limit: int)
    requires limit >= 1
    ensures FirstPages(s, limit, CeilDiv(|s|, limit)) == s
  {
    FirstPagesPrefix(s, limit, CeilDiv(|s|, limit));
    CeilDivSpec(|s|, limit);
  }

  // The range line of the views ("Showing X to Y of N") and their clamped
  // Previous/Next setters.

  /** `(currentPage - 1) * itemsPerPage + 1`: the 1-based number of the first
      item on the page. */
  function StartItem(currentPage: int, itemsPerPage: int): int {
    PageStart(currentPage, itemsPerPage) + 1
  }

  /** `Math.min(currentPage * itemsPerPage, totalItems)`. */
  function EndItem(currentPage: int, itemsPerPage: int, totalItems: int): int {
    Min(currentPage * itemsPerPage, totalItems)
  }

  /** The first number shown by the tabs (`totalItems > 0 ? startItem : 0`):
      0 when there are no items at all. */
  function ShownStart(currentPage: int, itemsPerPage: int, totalItems: int): int {
    if totalItems > 0 then StartItem(currentPage, itemsPerPage) else 0
  }

  /** The range line never spans more than one page, it is non-empty
      exactly on the pages that hold items, and with no items it reads
      "0 to 0". */
  lemma RangeLine(currentPage: int, itemsPerPage: int, totalItems: nat)
    requires currentPage >= 1 && itemsPerPage >= 1
    ensures EndItem(currentPage, itemsPerPage, totalItems) - StartItem(currentPage, itemsPerPage) + 1 <= itemsPerPage
    ensures (StartItem(currentPage, itemsPerPage) <= EndItem(currentPage, itemsPerPage, totalItems))
        <==> currentPage <= CeilDiv(totalItems, itemsPerPage)
    ensures totalItems == 0 ==>
              ShownStart(currentPage, itemsPerPage, totalItems) == 0
              && EndItem(currentPage, itemsPerPage, totalItems) == 0
  {
    MulPred(currentPage, itemsPerPage);
    CeilDivSpec(totalItems, itemsPerPage);
    var q := CeilDiv(totalItems, itemsPerPage);
    if currentPage <= q {
      MulMono(currentPage - 1, q - 1, itemsPerPage);
    } else {
      MulMono(q, currentPage - 1, itemsPerPage);
    }
  }

  /** On a page that holds items, the range line names exactly the items of
      the server's page: as many as the page has, starting at item number
      `StartItem`. */
  lemma RangeMatchesPage<T>(s: seq<T>, page: int, limit: int)
    requires limit >= 1 && 1 <= page <= CeilDiv(|s|, limit)
    ensures |Page(s, page, limit)| == EndItem(page, limit, |s|) - StartItem(page, limit) + 1
    ensures ShownStart(page, limit, |s|) == StartItem(page, limit) >= 1
    ensures forall k :: 0 <= k < |Page(s, page, limit)| ==>
              Page(s, page, limit)[k] == s[StartItem(page, limit) - 1 + k]
  {
    PageWindow(s, page, limit);
    RangeLine(page, limit, |s|);
    MulPred(page, limit);
  }

  /** `Math.max(1, p - 1)`. */
  function PreviousPage(p: int): int {
    Max(1, p - 1)
  }

  /** `Math.min(totalPages, p + 1)`. */
  function NextPage(p: int, totalPages: int): int {
    Min(totalPages, p + 1)
  }

  /** From a page in `[1, totalPages]` the clamped setters stay in that
      range; each moves by one page exactly when its button is enabled and
      otherwise leaves the page where it is. */
  lemma ClampedStepsStayInRange(p: int, totalPages: int)
    requires 1 <= p <= totalPages
    ensures 1 <= PreviousPage(p) <= totalPages && 1 <= NextPage(p, totalPages) <= totalPages
    ensures PreviousPage(p) == (if p > 1 then p - 1 else p)
    ensures NextPage(p, totalPages) == (if p < totalPages then p + 1 else p)
  {
  }

  /** Outside that range the Next setter can move backwards: with more
      pages remembered than the server now has, it jumps to the last one. */
  lemma NextPageCanMoveBack()
    ensures NextPage(5, 3) == 3
  {
  }
}
