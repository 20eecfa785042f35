/** The top navigation bar (src/components/Navbar.tsx): which link is highlighted,
    which links a role sees, and what logging out does. */
module Navbar {
  import opened Base
  import opened Text
  import opened Seqs
  import EventContext
  import opened AppRoutes

  datatype Link = Link(to: string, caption: string)

  /** `isActive(path)`: the current path is `path` itself or lies below it. */
  predicate IsActive(pathname: string, path: string) {
    pathname == path || StartsWith(pathname, path + "/")
  }

  /** A link is only highlighted on its own path or on one that continues it with a
      `/`, so `/events` is not active on `/events2`. */
  lemma ActiveOnlyAtSegmentBoundary(pathname: string, path: string)
    requires IsActive(pathname, path) && pathname != path
    ensures |pathname| > |path| && pathname[..|path|] == path && pathname[|path|] == '/'
  {
    assert pathname[..|path| + 1] == path + "/";
    assert pathname[..|path|] == pathname[..|path| + 1][..|path|];
  }

  /** Home ("/") is active on "/" and on no other path that does not begin with "//". */
  lemma HomeActiveOnlyAtRoot(pathname: string)
    requires !StartsWith(pathname, "//")
    ensures IsActive(pathname, "/") <==> pathname == "/"
  {
  }

  const PublicLinks: seq<Link> :=
    [Link("/", "Home"), Link("/events", "Events"), Link("/about", "About Us"),
     Link("/contact", "Contact Us")]

  const MyOrdersLink: Link := Link("/my-orders", "My Orders")

  const OrganizerLinks: seq<Link> :=
    [Link("/organizer", "My Events"), Link("/organizer/venues", "Venues"),
     Link("/organizer/categories", "Categories"), Link("/organizer/analytics", "Analytics")]

  const AdminLinks: seq<Link> :=
    [Link("/admin", "Dashboard"), Link("/admin/users", "Users"),
     Link("/admin/events", "Events"), Link("/admin/admin-orders", "Orders")]

  predicate HasRole(user: Option<EventContext.User>, role: string) {
    user.Some? && user.value.role == Some(role)
  }

  /** `navLinks`: public links when nobody is signed in; only the organizer links for
      an organizer; only the admin links for an admin; the public links followed by
      My Orders for any other signed-in user, whatever (or whether) their role. */
  function NavLinks(user: Option<EventContext.User>): (links: seq<Link>)
    ensures user.None? ==> links == PublicLinks
    ensures HasRole(user, "organizer") ==> links == OrganizerLinks
    ensures HasRole(user, "admin") ==> links == AdminLinks
    ensures user.Some? && !HasRole(user, "organizer") && !HasRole(user, "admin") ==>
              links == PublicLinks + [MyOrdersLink]
  {
    match user
    case None => PublicLinks
    case Some(u) =>
      if u.role == Some("organizer") then OrganizerLinks
      else if u.role == Some("admin") then AdminLinks
      else PublicLinks + [MyOrdersLink]
  }

  function Targets(links: seq<Link>): (ts: seq<string>)
    ensures |ts| == |links|
    ensures forall i :: 0 <= i < |links| ==> ts[i] == links[i].to
  {
    seq(|links|, i requires 0 <= i < |links| => links[i].to)
  }

  /** Every list of links uses each target once, so the targets are valid React keys. */
  lemma NavLinkTargetsDistinct(user: Option<EventContext.User>)
    ensures Distinct(Targets(NavLinks(user)))
  {
    var ts := Targets(NavLinks(user));
    if user.None? {
      assert ts == ["/", "/events", "/about", "/contact"];
    } else if HasRole(user, "organizer") {
      assert ts == ["/organizer", "/organizer/venues", "/organizer/categories", "/organizer/analytics"];
    } else if HasRole(user, "admin") {
      assert ts == ["/admin", "/admin/users", "/admin/events", "/admin/admin-orders"];
    } else {
      assert ts == ["/", "/events", "/about", "/contact", "/my-orders"];
    }
  }

  /** An organizer sees no public link, and My Orders is shown to no organizer or
      admin. */
  lemma StaffSeeNoPublicLinks(user: Option<EventContext.User>)
    requires HasRole(user, "organizer") || HasRole(user, "admin")
    ensures forall l :: l in NavLinks(user) ==> l !in PublicLinks && l != MyOrdersLink
  {
  }

  class NavbarView {
    /** Whether the mobile menu is open. */
    var isOpen: bool

    constructor ()
      ensures !isOpen
    {
      isOpen := false;
    }

    method ToggleMenu()
      modifies this
      ensures isOpen == !old(isOpen)
    {
      isOpen := !isOpen;
    }

    method CloseMenu()
      modifies this
      ensures !isOpen
    {
      isOpen := false;
    }

    /** `handleLogout`: whatever the logout POST returns, the user is cleared, the
        page goes to "/" and the menu closes. */
    method HandleLogout<T>(store: EventContext.SessionStore, resp: Response<T>)
      returns (navigateTo: string)
      modifies this, store
      ensures store.user == None && navigateTo == "/" && !isOpen
      ensures store.isSidebarVisible == old(store.isSidebarVisible)
      ensures store.isLoadingProfile == old(store.isLoadingProfile)
    {
      store.user := None;
      navigateTo := "/";
      isOpen := false;
    }
  }

  /** The My Orders link points at `/my-orders`, but the table only has `/my-order`:
      following it falls through to the `*` route and lands on "/". */
  lemma MyOrdersLinkFallsBack()
    ensures Resolve(MyOrdersLink.to) == Redirect("/")
  {
    var segs := ["my-orders"];
    PathOfOne("my-orders");
    assert "/" + "my-orders" == "/my-orders";
    MyOrdersMissesPublicRoutes();
    MyOrdersMissesGuardedRoutes();
    FallsBack(segs);
  }

  lemma MyOrdersMissesPublicRoutes()
    ensures NoneMatch(PublicRoutes, ["my-orders"])
  {
    var segs := ["my-orders"];
    forall i | 0 <= i < |PublicRoutes| ensures !Matches(PublicRoutes[i].pattern, segs) {
      if PublicRoutes[i].pattern != [] {
        assert !SegMatches(PublicRoutes[i].pattern[0], segs[0]);
      }
    }
  }

  lemma MyOrdersMissesGuardedRoutes()
    ensures NoneMatch(MyOrderRoutes, ["my-orders"]) && NoneMatch(OrganizerRoutes, ["my-orders"])
    ensures NoneMatch(AdminRoutes, ["my-orders"])
  {
    var segs := ["my-orders"];
    LowerDiffers("my-orders", "organizer", 0);
    assert !SegMatches(MyOrderRoutes[0].pattern[0], segs[0]);
    forall i | 0 <= i < |OrganizerRoutes| ensures !Matches(OrganizerRoutes[i].pattern, segs) {
      assert !SegMatches(OrganizerRoutes[i].pattern[0], segs[0]);
    }
    forall i | 0 <= i < |AdminRoutes| ensures !Matches(AdminRoutes[i].pattern, segs) {
      assert !SegMatches(AdminRoutes[i].pattern[0], segs[0]);
    }
  }

  lemma AdminOrdersMissesOtherSubtrees()
    ensures NoneMatch(PublicRoutes, ["admin", "admin-orders"])
    ensures NoneMatch(MyOrderRoutes, ["admin", "admin-orders"])
    ensures NoneMatch(OrganizerRoutes, ["admin", "admin-orders"])
  {
    var segs := ["admin", "admin-orders"];
    forall i | 0 <= i < |PublicRoutes| ensures !Matches(PublicRoutes[i].pattern, segs) {
      if |PublicRoutes[i].pattern| == 2 {
        assert !SegMatches(PublicRoutes[i].pattern[0], segs[0]);
      }
    }
    forall i | 0 <= i < |OrganizerRoutes| ensures !Matches(OrganizerRoutes[i].pattern, segs) {
      assert !SegMatches(OrganizerRoutes[i].pattern[0], segs[0]);
    }
  }

  lemma AdminOrdersMissesAdminRoutes()
    ensures NoneMatch(AdminRoutes, ["admin", "admin-orders"])
  {
    var segs := ["admin", "admin-orders"];
    forall i | 0 <= i < |AdminRoutes| ensures !Matches(AdminRoutes[i].pattern, segs) {
      if |AdminRoutes[i].pattern| == 2 {
        assert !SegMatches(AdminRoutes[i].pattern[1], segs[1]);
      }
    }
  }

  /** The admin Orders link points at `/admin/admin-orders`, but the admin subtree
      only has `orders`: it too lands on "/". */
  lemma AdminOrdersLinkFallsBack()
    ensures Resolve(AdminLinks[3].to) == Redirect("/")
  {
    var segs := ["admin", "admin-orders"];
    AdminOrdersPath();
    AdminOrdersMissesOtherSubtrees();
    AdminOrdersMissesAdminRoutes();
    FallsBack(segs);
  }

  lemma AdminOrdersPath()
    ensures PathOf(["admin", "admin-orders"]) == "/admin/admin-orders"
  {
    PathOfTwo("admin", "admin-orders");
    assert "/" + "admin" + "/" + "admin-orders" == "/admin/admin-orders";
  }
}
