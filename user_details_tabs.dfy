// components/users/user-details-tabs.tsx: the tabs of the user-details page.
// Which tabs exist depends on the user's role, status and verification; the
// active tab starts at the first of them and changes on a click.
module UserDetailsTabs {
  datatype Role = Traveler | TourGuide | Admin
  datatype UserStatus = Active | Inactive | Suspended
  datatype Tab = Tours | Transactions | Reviews

  /** `getAvailableTabs`. The last branch gives the tours tab, whatever its
      comment says. */
  function AvailableTabs(role: Role, status: UserStatus, isVerified: bool): (tabs: seq<Tab>)
    ensures |tabs| >= 1
    ensures forall i, j :: 0 <= i < j < |tabs| ==> tabs[i] != tabs[j]
  {
    if role == TourGuide && isVerified then [Tours, Transactions, Reviews]
    else if role == Traveler && status == Active then [Transactions]
    else [Tours]
  }

  /** A verified guide sees all three tabs, an active traveler only the
      transactions, and everyone else only the tours; reviews are shown to
      verified guides alone. */
  lemma AvailableTabsSpec(role: Role, status: UserStatus, isVerified: bool)
    ensures var tabs := AvailableTabs(role, status, isVerified);
      && (tabs == [Tours, Transactions, Reviews] <==> role == TourGuide && isVerified)
      && (tabs == [Transactions] <==> role == Traveler && status == Active)
      && (tabs == [Tours] <==> !(role == TourGuide && isVerified) && !(role == Traveler && status == Active))
      && (Reviews in tabs <==> role == TourGuide && isVerified)
      && (Transactions in tabs <==> (role == TourGuide && isVerified) || (role == Traveler && status == Active))
  {
    var tabs := AvailableTabs(role, status, isVerified);
    assert [Tours] != [Transactions];
    assert [Tours, Transactions, Reviews] != [Transactions];
    assert [Tours, Transactions, Reviews] != [Tours];
    if !(role == TourGuide && isVerified) && !(role == Traveler && status == Active) {
      assert tabs == [Tours];
      assert Reviews !in tabs && Transactions !in tabs;
    }
  }

  /** `tabLabels[tab]`. */
  function TabLabel(tab: Tab): (text: string)
    ensures text in {"Tours", "Transactions", "Reviews"}
  {
    match tab
    case Tours => "Tours"
    case Transactions => "Transactions"
    case Reviews => "Reviews"
  }

  /** Different tabs have different labels. */
  lemma TabLabelsDistinct(a: Tab, b: Tab)
    ensures TabLabel(a) == TabLabel(b) <==> a == b
  {
    if a != b {
      assert TabLabel(a) != TabLabel(b) by {
        assert "Tours" != "Transactions" && "Tours" != "Reviews" && "Transactions" != "Reviews" by {
          assert "Tours"[1] != "Transactions"[1];
          assert "Tours"[0] != "Reviews"[0];
          assert "Transactions"[0] != "Reviews"[0];
        }
      }
    }
  }

  /** The three `activeTab === ... && <Panel/>` lines, as the panels they
      render, in order. */
  function Panels(activeTab: Tab): seq<Tab> {
    (if activeTab == Tours then [Tours] else [])
    + (if activeTab == Transactions then [Transactions] else [])
    + (if activeTab == Reviews then [Reviews] else [])
  }

  /** Exactly one panel is rendered, the active tab's. */
  lemma OnePanel(activeTab: Tab)
    ensures Panels(activeTab) == [activeTab]
  {
  }

  class UserDetailsTab {
    const userId: string
    const role: Role
    const status: UserStatus
    const isVerified: bool
    var activeTab: Tab

    function Available(): seq<Tab> {
      AvailableTabs(role, status, isVerified)
    }

    /** The active tab is one of the available ones. */
    predicate Valid()
      reads this
    {
      activeTab in Available()
    }

    /** `useState(availableTabs[0])`. */
    constructor(userId: string, role: Role, status: UserStatus, isVerified: bool)
      ensures this.userId == userId && this.role == role && this.status == status && this.isVerified == isVerified
      ensures activeTab == AvailableTabs(role, status, isVerified)[0]
      ensures Valid()
    {
      this.userId := userId;
      this.role := role;
      this.status := status;
      this.isVerified := isVerified;
      activeTab := AvailableTabs(role, status, isVerified)[0];
    }

    /** A click on one of the rendered buttons: there is a button for each
        available tab and no other. */
    method Click(tab: Tab)
      requires tab in Available()
      modifies this
      ensures activeTab == tab
      ensures Valid()
    {
      activeTab := tab;
    }
  }

  /** In a valid state the one panel rendered is an available tab's: the
      reviews panel only ever shows for a verified guide, and the
      transactions panel only for a verified guide or an active traveler. */
  lemma RenderedPanelAvailable(t: UserDetailsTab)
    requires t.Valid()
    ensures Panels(t.activeTab) == [t.activeTab]
    ensures t.activeTab == Reviews ==> t.role == TourGuide && t.isVerified
    ensures t.activeTab == Transactions ==>
              (t.role == TourGuide && t.isVerified) || (t.role == Traveler && t.status == Active)
  {
    AvailableTabsSpec(t.role, t.status, t.isVerified);
  }

  /** A user with a single tab never leaves it, whatever is clicked. */
  lemma SingleTabIsFixed(role: Role, status: UserStatus, isVerified: bool, tab: Tab)
    requires |AvailableTabs(role, status, isVerified)| == 1
    requires tab in AvailableTabs(role, status, isVerified)
    ensures tab == AvailableTabs(role, status, isVerified)[0]
    ensures Panels(tab) == [AvailableTabs(role, status, isVerified)[0]]
  {
  }
}
