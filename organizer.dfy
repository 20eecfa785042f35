/** The organizer sidebar (src/pages/organizerPage/Organizer.tsx), rendered by
    `OrganizerLayout` at `/organizer`: which groups are unfolded, the static menu, and
    what its logout button does. */
module Organizer {
  import opened Base
  import opened Seqs
  import opened AppRoutes
  import EventContext

  /** `handleShowChildren(index)`: the index is dropped (every copy of it) when the
      list holds it, and appended otherwise. */
  function Toggle(prev: seq<int>, index: int): (next: seq<int>)
    ensures index in next <==> index !in prev
    ensures forall x :: x != index ==> (x in next <==> x in prev)
  {
    if index in prev then Filter(prev, x => x != index) else prev + [index]
  }

  /** Toggling never introduces a duplicate. */
  lemma ToggleKeepsDistinct(prev: seq<int>, index: int)
    requires Distinct(prev)
    ensures Distinct(Toggle(prev, index))
  {
    if index in prev {
      FilterDistinct(prev, x => x != index);
    } else {
      var next := prev + [index];
      forall i, j | 0 <= i < j < |next| ensures next[i] != next[j] {
        if j == |prev| {
          assert next[i] == prev[i];
        } else {
          assert next[i] == prev[i] && next[j] == prev[j];
        }
      }
    }
  }

  /** Toggling the same group twice gives back the same set of open groups; when
      the group was closed, it gives back the very same list. */
  lemma ToggleTwice(prev: seq<int>, index: int)
    ensures forall x :: x in Toggle(Toggle(prev, index), index) <==> x in prev
    ensures index !in prev ==> Toggle(Toggle(prev, index), index) == prev
  {
    if index !in prev {
      var p := (x: int) => x != index;
      FilterAppend(prev, [index], p);
      FilterKeepsAll(prev, p);
      assert Filter([index], p) == [];
    }
  }

  class SidebarState {
    /** `activeIndex`: the groups whose children are shown. */
    var activeIndex: seq<int>

    ghost predicate Valid()
      reads this
    {
      Distinct(activeIndex)
    }

    constructor ()
      ensures activeIndex == [] && Valid()
    {
      activeIndex := [];
    }

    method HandleShowChildren(index: int)
      requires Valid()
      modifies this
      ensures Valid()
      ensures activeIndex == Toggle(old(activeIndex), index)
    {
      ToggleKeepsDistinct(activeIndex, index);
      activeIndex := Toggle(activeIndex, index);
    }
  }

  /** The close button and every menu link flip the shared sidebar flag. */
  method ToggleSidebar(store: EventContext.SessionStore)
    modifies store
    ensures store.isSidebarVisible == !old(store.isSidebarVisible)
    ensures store.user == old(store.user) && store.isLoadingProfile == old(store.isLoadingProfile)
  {
    store.isSidebarVisible := !store.isSidebarVisible;
  }

  datatype SidebarChild = SidebarChild(subTitle: string, to: string)
  datatype SidebarItem = SidebarItem(title: string, children: seq<SidebarChild>)

  const Sidebar: seq<SidebarItem> := [
    SidebarItem("Venue", [SidebarChild("Create Venue", "create-venue"), SidebarChild("Venue List", "venue-list")]),
    SidebarItem("Category", [SidebarChild("Create Category", "create-category"), SidebarChild("Category List", "category-list")]),
    SidebarItem("Event", [SidebarChild("Create Event", "create-event"), SidebarChild("Event List", "event-list")])
  ]

  /** The menu has three groups of two links each, pairwise distinct. */
  lemma SidebarShape()
    ensures |Sidebar| == 3
    ensures forall g :: 0 <= g < |Sidebar| ==> |Sidebar[g].children| == 2
    ensures Distinct([Sidebar[0].children[0].to, Sidebar[0].children[1].to,
                      Sidebar[1].children[0].to, Sidebar[1].children[1].to,
                      Sidebar[2].children[0].to, Sidebar[2].children[1].to])
  {
  }

  /** The body of the organizer logout call. */
  datatype LogoutBody = LogoutBody(success: bool)

  /** `handleLogout`: the page goes to "/login" only when the response says so; a
      failure is only logged. The session user is never touched here. */
  function LogoutNavigation(resp: Response<LogoutBody>): (navigateTo: Option<string>)
    ensures navigateTo.Some? <==> resp.Ok? && resp.body.success
    ensures navigateTo.Some? ==> navigateTo.value == "/login"
  {
    if resp.Ok? && resp.body.success then Some("/login") else None
  }

  /** The relative "List" links resolve below `/organizer`, where the table has
      `venues`, `categories` and the index instead; each falls through to "/". */
  lemma ListLinkMisses(name: string)
    requires name == "venue-list" || name == "category-list" || name == "event-list"
             || name == "event-analytics"
    ensures NoneMatch(OrganizerRoutes, ["organizer", name])
  {
    var segs := ["organizer", name];
    LowerDiffers("event-list", "categories", 0);
    forall i | 0 <= i < |OrganizerRoutes| ensures !Matches(OrganizerRoutes[i].pattern, segs) {
      if |OrganizerRoutes[i].pattern| == 2 {
        assert !SegMatches(OrganizerRoutes[i].pattern[1], segs[1]);
      }
    }
  }

  /** The three "List" links and the Dashboard link (`/organizer/event-analytics`,
      where the table has `analytics`) all land on "/". */
  lemma DeadSidebarLinks(name: string)
    requires name == Sidebar[0].children[1].to || name == Sidebar[1].children[1].to
             || name == Sidebar[2].children[1].to || name == "event-analytics"
    ensures Resolve(PathOf(["organizer", name])) == Redirect("/")
  {
    var segs := ["organizer", name];
    OrganizerPathMissesOtherSubtrees(segs);
    assert name == "venue-list" || name == "category-list" || name == "event-list"
           || name == "event-analytics";
    ListLinkMisses(name);
    FallsBack(segs);
  }

  /** A path of two or three segments under `/organizer` matches nothing outside
      the organizer subtree. */
  lemma OrganizerPathMissesOtherSubtrees(segs: seq<string>)
    requires 2 <= |segs| <= 3 && segs[0] == "organizer"
    ensures NoneMatch(PublicRoutes, segs)
    ensures NoneMatch(MyOrderRoutes, segs)
    ensures NoneMatch(AdminRoutes, segs)
  {
    forall i | 0 <= i < |PublicRoutes| ensures !Matches(PublicRoutes[i].pattern, segs) {
      if |PublicRoutes[i].pattern| == 2 {
        assert !SegMatches(PublicRoutes[i].pattern[0], segs[0]);
      }
    }
    forall i | 0 <= i < |AdminRoutes| ensures !Matches(AdminRoutes[i].pattern, segs) {
      if |AdminRoutes[i].pattern| == |segs| {
        assert !SegMatches(AdminRoutes[i].pattern[0], segs[0]);
      }
    }
  }
}
