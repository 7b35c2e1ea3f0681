// components/sidebar.tsx: the resizable navigation sidebar. Its width follows
// the mouse while the resize handle is dragged, clamped to [80, 400]; the
// toggle button switches between the default width and the narrowest one,
// and below 150 pixels the sidebar counts as collapsed.
module Sidebar {
  import opened Seqs

  const MinWidth := 80
  const MaxWidth := 400
  const CollapseThreshold := 150
  const DefaultExpandedWidth := 256

  /** `Math.min(MAX_WIDTH, Math.max(MIN_WIDTH, startWidth + (clientX - startX)))`. */
  function DragWidth(startWidth: int, startX: int, clientX: int): (w: int)
    ensures MinWidth <= w <= MaxWidth
    ensures MinWidth <= startWidth + (clientX - startX) <= MaxWidth ==> w == startWidth + (clientX - startX)
    ensures startWidth + (clientX - startX) < MinWidth ==> w == MinWidth
    ensures startWidth + (clientX - startX) > MaxWidth ==> w == MaxWidth
  {
    Min(MaxWidth, Max(MinWidth, startWidth + (clientX - startX)))
  }

  /** Mouse moves that do not reach a clamp follow the mouse one for
      one; a move back to the start point restores the start width when that
      width is in range. */
  lemma DragFollowsMouse(startWidth: int, startX: int, x1: int, x2: int)
    requires MinWidth <= startWidth + (x1 - startX) <= MaxWidth
    requires MinWidth <= startWidth + (x2 - startX) <= MaxWidth
    ensures DragWidth(startWidth, startX, x2) - DragWidth(startWidth, startX, x1) == x2 - x1
    ensures MinWidth <= startWidth <= MaxWidth ==> DragWidth(startWidth, startX, startX) == startWidth
  {
  }

  /** A navigation entry; its icon is left out. */
  datatype NavItem = NavItem(name: string, href: string)

  const NavItems: seq<NavItem> := [
    NavItem("Overview", "/"),
    NavItem("Users", "/users"),
    NavItem("Verification", "/verification"),
    NavItem("Tours", "/tours"),
    NavItem("Bookings", "/bookings"),
    NavItem("Financial", "/financial"),
    NavItem("Reports", "/reports"),
    NavItem("Settings", "/settings")
  ]

  /** `pathname === item.href`: an exact match, so a nested path such as
      "/users/usr_001" highlights no entry. */
  predicate IsActive(pathname: string, item: NavItem) {
    pathname == item.href
  }

  /** No two entries share an href. */
  lemma NavHrefsDistinct()
    ensures forall i, j :: 0 <= i < j < |NavItems| ==> NavItems[i].href != NavItems[j].href
  {
    var hs := seq(|NavItems|, k requires 0 <= k < |NavItems| => NavItems[k].href);
    assert hs == ["/", "/users", "/verification", "/tours", "/bookings", "/financial", "/reports", "/settings"];
    forall i, j | 0 <= i < j < |NavItems|
      ensures NavItems[i].href != NavItems[j].href
    {
      assert |hs[0]| == 1 && hs[0][0] == '/';
      assert hs[1][1] == 'u' && hs[2][1] == 'v' && hs[3][1] == 't' && hs[4][1] == 'b';
      assert hs[5][1] == 'f' && hs[6][1] == 'r' && hs[7][1] == 's';
      assert |hs[1]| == 6 && |hs[7]| == 9;
      assert hs[i] == NavItems[i].href && hs[j] == NavItems[j].href;
    }
  }

  /** At most one entry is highlighted for any path, and for each entry's
      own href exactly that entry is. */
  lemma AtMostOneActive(pathname: string)
    ensures forall i, j ::
              (0 <= i < |NavItems| && 0 <= j < |NavItems| &&
               IsActive(pathname, NavItems[i]) && IsActive(pathname, NavItems[j])) ==> i == j
    ensures forall i, j :: 0 <= i < |NavItems| && 0 <= j < |NavItems| ==>
              (IsActive(NavItems[i].href, NavItems[j]) <==> i == j)
  {
    NavHrefsDistinct();
  }

  class SidebarState {
    var sidebarWidth: int
    var isDragging: bool
    var startX: int
    var startWidth: int

    /** The width stays between the two limits. */
    predicate Valid()
      reads this
    {
      MinWidth <= sidebarWidth <= MaxWidth
    }

    /** `sidebarWidth < COLLAPSE_THRESHOLD`. */
    predicate IsCollapsed()
      reads this
    {
      sidebarWidth < CollapseThreshold
    }

    /** Width 256, not dragging, both drag references 0. */
    constructor()
      ensures sidebarWidth == DefaultExpandedWidth && !isDragging && startX == 0 && startWidth == 0
      ensures Valid() && !IsCollapsed()
    {
      sidebarWidth := DefaultExpandedWidth;
      isDragging := false;
      startX := 0;
      startWidth := 0;
    }

    /** `handleMouseDown`: remember where the drag starts and from which
        width, then start dragging. */
    method MouseDown(clientX: int)
      modifies this
      ensures startX == clientX && startWidth == old(sidebarWidth) && isDragging
      ensures sidebarWidth == old(sidebarWidth)
    {
      startX := clientX;
      startWidth := sidebarWidth;
      isDragging := true;
    }

    /** A document `mousemove`: the listener is attached only while
        dragging, and then sets the width from the drag start alone. */
    method MouseMove(clientX: int)
      modifies this
      ensures isDragging == old(isDragging) && startX == old(startX) && startWidth == old(startWidth)
      ensures old(isDragging) ==> sidebarWidth == DragWidth(startWidth, startX, clientX)
      ensures !old(isDragging) ==> sidebarWidth == old(sidebarWidth)
      ensures old(Valid()) ==> Valid()
      ensures old(isDragging) ==> Valid()
    {
      if isDragging {
        sidebarWidth := DragWidth(startWidth, startX, clientX);
      }
    }

    /** `handleMouseUp`: stop dragging; the width stays where it is. */
    method MouseUp()
      modifies this
      ensures !isDragging
      ensures sidebarWidth == old(sidebarWidth) && startX == old(startX) && startWidth == old(startWidth)
    {
      isDragging := false;
    }

    /** `toggleCollapse`: a collapsed sidebar opens to 256, any other
        closes to 80, so the collapsed state always flips. */
    method ToggleCollapse()
      modifies this
      ensures sidebarWidth == (if old(IsCollapsed()) then DefaultExpandedWidth else MinWidth)
      ensures IsCollapsed() <==> !old(IsCollapsed())
      ensures Valid()
      ensures isDragging == old(isDragging) && startX == old(startX) && startWidth == old(startWidth)
    {
      sidebarWidth := if IsCollapsed() then DefaultExpandedWidth else MinWidth;
    }
  }

  /** A press, two moves and a release: the width left behind is the clamp
      of the last move measured from the press, whatever the first move
      did. */
  method DragTwice(s: SidebarState, downX: int, x1: int, x2: int)
    requires s.Valid()
    modifies s
    ensures s.Valid() && !s.isDragging
    ensures s.sidebarWidth == DragWidth(old(s.sidebarWidth), downX, x2)
  {
    s.MouseDown(downX);
    s.MouseMove(x1);
    s.MouseMove(x2);
    s.MouseUp();
  }
}
