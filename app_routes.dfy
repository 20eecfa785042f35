/** The route table of `App` (src/App.tsx): which page each path renders and which
    roles the guard around it admits. Paths are matched as react-router does by
    default: segment by segment, ignoring ASCII case and trailing slashes, with a
    `:param` segment matching any one non-empty segment. A path with an empty segment
    before its trailing slashes (`//events`, `/organizer//create-event`) matches no
    route. */
module AppRoutes {
  import opened Base
  import opened Text

  /** One segment of a route pattern. */
  datatype Seg = Lit(name: string) | Param(name: string)

  /** `ProtectedRoute allowedRoles={…}` around a subtree, or no guard at all. */
  datatype Guard = Public | Roles(allowed: set<string>)

  datatype Page =
    | HomePage | EventsPage | CategoriesPage | CategoryEventsPage | UserEventDetailPage
    | ContactPage | AboutUsPage | UserLogin | RegisterPage | SeatSelectionPage
    | PaymentPage | VerifyPaymentPage | TicketSuccessPage
    | UserOrdersPage
    | EventList | EventDetail | CreateEvent | EditEvent | EventAnalytics
    | CreateVenue | VenueList | UpdateVenue | CreateCategory | CategoryList | EditCategory
    | AdminDashboardStats | Users | AdminEvents | AdminOrderListPage | AdminCategories
    | AdminVenues | AdminMedia

  datatype Route = Route(pattern: seq<Seg>, page: Page, guard: Guard)

  /** What the router does with a path: render a page behind a guard, or redirect. */
  datatype Resolution = Render(page: Page, guard: Guard) | Redirect(to: string)

  const MyOrderRoles: set<string> := {"user", "organizer", "admin"}
  const OrganizerRoles: set<string> := {"organizer", "admin"}
  const AdminRoles: set<string> := {"admin"}

  /** The allowed-role sets are nested, so an admin is admitted everywhere and a plain
      user into neither the organizer nor the admin subtree. */
  lemma RoleSetsNested()
    ensures AdminRoles <= OrganizerRoles <= MyOrderRoles
    ensures "admin" in AdminRoles && "user" !in OrganizerRoles && "user" !in AdminRoles
  {
  }

  /** The pages under `UserLayout`, with no guard. */
  const PublicRoutes: seq<Route> := [
    Route([], HomePage, Public),
    Route([Lit("events")], EventsPage, Public),
    Route([Lit("categories")], CategoriesPage, Public),
    Route([Lit("events-by-category"), Param("categoryId")], CategoryEventsPage, Public),
    Route([Lit("user-event-detail"), Param("id")], UserEventDetailPage, Public),
    Route([Lit("contact")], ContactPage, Public),
    Route([Lit("about")], AboutUsPage, Public),
    Route([Lit("login")], UserLogin, Public),
    Route([Lit("register")], RegisterPage, Public),
    Route([Lit("seat-selection")], SeatSelectionPage, Public),
    Route([Lit("payment")], PaymentPage, Public),
    Route([Lit("verify-payment")], VerifyPaymentPage, Public),
    Route([Lit("ticket-success")], TicketSuccessPage, Public)
  ]

  const MyOrderRoutes: seq<Route> := [
    Route([Lit("my-order")], UserOrdersPage, Roles(MyOrderRoles))
  ]

  const OrganizerRoutes: seq<Route> := [
    Route([Lit("organizer")], EventList, Roles(OrganizerRoles)),
    Route([Lit("organizer"), Lit("events"), Param("id")], EventDetail, Roles(OrganizerRoles)),
    Route([Lit("organizer"), Lit("create-event")], CreateEvent, Roles(OrganizerRoles)),
    Route([Lit("organizer"), Lit("edit-event"), Param("id")], EditEvent, Roles(OrganizerRoles)),
    Route([Lit("organizer"), Lit("analytics")], EventAnalytics, Roles(OrganizerRoles)),
    Route([Lit("organizer"), Lit("create-venue")], CreateVenue, Roles(OrganizerRoles)),
    Route([Lit("organizer"), Lit("venues")], VenueList, Roles(OrganizerRoles)),
    Route([Lit("organizer"), Lit("update-venue"), Param("id")], UpdateVenue, Roles(OrganizerRoles)),
    Route([Lit("organizer"), Lit("create-category")], CreateCategory, Roles(OrganizerRoles)),
    Route([Lit("organizer"), Lit("categories")], CategoryList, Roles(OrganizerRoles)),
    Route([Lit("organizer"), Lit("edit-category"), Param("id")], EditCategory, Roles(OrganizerRoles))
  ]

  const AdminRoutes: seq<Route> := [
    Route([Lit("admin")], AdminDashboardStats, Roles(AdminRoles)),
    Route([Lit("admin"), Lit("users")], Users, Roles(AdminRoles)),
    Route([Lit("admin"), Lit("events")], AdminEvents, Roles(AdminRoles)),
    Route([Lit("admin"), Lit("orders")], AdminOrderListPage, Roles(AdminRoles)),
    Route([Lit("admin"), Lit("categories")], AdminCategories, Roles(AdminRoles)),
    Route([Lit("admin"), Lit("venues")], AdminVenues, Roles(AdminRoles)),
    Route([Lit("admin"), Lit("media")], AdminMedia, Roles(AdminRoles))
  ]

  /** The table, in the order of the JSX; the `*` route is the fallback of `Resolve`. */
  const Table: seq<Route> := PublicRoutes + MyOrderRoutes + OrganizerRoutes + AdminRoutes

  /** The length of the first segment of `s`: the characters before the first `/`. */
  function SegmentLength(s: string): (n: nat)
    ensures n <= |s|
    ensures forall k :: 0 <= k < n ==> s[k] != '/'
    ensures n < |s| ==> s[n] == '/'
    decreases |s|
  {
    if s == [] || s[0] == '/' then 0 else 1 + SegmentLength(s[1..])
  }

  /** The non-empty segments of a path, in order. On a `Readable` path these are its
      segments, trailing slashes dropped. */
  function Segments(path: string): (segs: seq<string>)
    ensures forall k :: 0 <= k < |segs| ==> segs[k] != [] && '/' !in segs[k]
    decreases |path|
  {
    if path == [] then []
    else if path[0] == '/' then Segments(path[1..])
    else
      var n := SegmentLength(path);
      [path[..n]] + Segments(path[n..])
  }

  /** What follows a `/` in a path the router can read: segments separated by single
      slashes, then possibly a run of trailing slashes. */
  predicate ReadableRest(s: string)
    decreases |s|
  {
    if s == [] then true
    else if s[0] == '/' then AllSlashes(s)
    else
      var n := SegmentLength(s);
      n == |s| || ReadableRest(s[n + 1..])
  }

  predicate AllSlashes(s: string) {
    forall k :: 0 <= k < |s| ==> s[k] == '/'
  }

  /** A path the route patterns can match: it starts with "/", and no segment before
      its trailing slashes is empty. Each pattern compiles to a regular expression that
      starts with "/" and allows extra slashes only at the end. */
  predicate Readable(path: string) {
    path != [] && path[0] == '/' && ReadableRest(path[1..])
  }

  predicate IsSegment(s: string) {
    s != [] && '/' !in s
  }

  /** The path written as "/" followed by the segments joined with "/". */
  function PathOf(segs: seq<string>): string {
    if segs == [] then "/" else JoinSegments(segs)
  }

  function JoinSegments(segs: seq<string>): string {
    if segs == [] then "" else "/" + segs[0] + JoinSegments(segs[1..])
  }

  lemma {:induction false} SegmentLengthOfSegment(a: string, rest: string)
    requires IsSegment(a) && (rest == [] || rest[0] == '/')
    ensures SegmentLength(a + rest) == |a|
    decreases |a|
  {
    if |a| > 1 {
      assert (a + rest)[1..] == a[1..] + rest;
      SegmentLengthOfSegment(a[1..], rest);
    } else {
      assert (a + rest)[1..] == rest;
    }
  }

  lemma {:induction false} SegmentsOfJoin(segs: seq<string>)
    requires forall k :: 0 <= k < |segs| ==> IsSegment(segs[k])
    ensures Segments(JoinSegments(segs)) == segs
    decreases |segs|
  {
    if segs != [] {
      var tail := segs[1..];
      assert forall k :: 0 <= k < |tail| ==> IsSegment(tail[k]) by {
        forall k | 0 <= k < |tail| ensures IsSegment(tail[k]) {
          assert tail[k] == segs[k + 1];
        }
      }
      SegmentsOfJoin(tail);
      assert IsSegment(segs[0]);
      SegmentsOfCons(segs[0], JoinSegments(tail));
      assert [segs[0]] + tail == segs;
    }
  }

  lemma SegmentsOfCons(a: string, rest: string)
    requires IsSegment(a) && (rest == [] || rest[0] == '/')
    ensures Segments("/" + a + rest) == [a] + Segments(rest)
  {
    var p := "/" + a + rest;
    assert p[0] == '/' && p[1..] == a + rest;
    assert Segments(p) == Segments(a + rest);
    SegmentLengthOfSegment(a, rest);
    assert (a + rest)[..|a|] == a;
    assert (a + rest)[|a|..] == rest;
  }

  /** Joined segments form a path the router can read. */
  lemma {:induction false} JoinReadable(segs: seq<string>)
    requires segs != [] && forall k :: 0 <= k < |segs| ==> IsSegment(segs[k])
    ensures Readable(JoinSegments(segs))
    decreases |segs|
  {
    var a, tail := segs[0], segs[1..];
    var rest := JoinSegments(tail);
    assert JoinSegments(segs) == "/" + a + rest;
    assert ("/" + a + rest)[1..] == a + rest;
    assert IsSegment(a);
    if tail != [] {
      assert rest[0] == '/';
      assert forall k :: 0 <= k < |tail| ==> IsSegment(tail[k]) by {
        forall k | 0 <= k < |tail| ensures IsSegment(tail[k]) {
          assert tail[k] == segs[k + 1];
        }
      }
      JoinReadable(tail);
    }
    SegmentLengthOfSegment(a, rest);
    assert a[0] != '/';
    assert (a + rest)[0] == a[0];
    if tail != [] {
      assert (a + rest)[|a| + 1..] == rest[1..];
    }
  }

  /** Splitting a path built from segments gives those segments back, and the router
      can read that path. */
  lemma SegmentsOfPath(segs: seq<string>)
    requires forall k :: 0 <= k < |segs| ==> IsSegment(segs[k])
    ensures Segments(PathOf(segs)) == segs
    ensures Readable(PathOf(segs))
  {
    if segs != [] {
      SegmentsOfJoin(segs);
      JoinReadable(segs);
    } else {
      assert PathOf(segs) == "/";
      assert PathOf(segs)[1..] == [];
    }
  }

  lemma {:induction false} SegmentLengthSlash(s: string)
    ensures SegmentLength(s + "/") == SegmentLength(s)
    decreases |s|
  {
    if s == [] {
      assert s + "/" == "/";
    } else if s[0] != '/' {
      assert (s + "/")[0] == s[0];
      assert (s + "/")[1..] == s[1..] + "/";
      SegmentLengthSlash(s[1..]);
    } else {
      assert (s + "/")[0] == '/';
    }
  }

  lemma {:induction false} SegmentsSlash(p: string)
    ensures Segments(p + "/") == Segments(p)
    decreases |p|
  {
    if p == [] {
      assert p + "/" == "/";
      assert "/"[1..] == [];
    } else if p[0] == '/' {
      assert (p + "/")[0] == '/';
      assert (p + "/")[1..] == p[1..] + "/";
      SegmentsSlash(p[1..]);
    } else {
      var n := SegmentLength(p);
      SegmentLengthSlash(p);
      assert (p + "/")[0] == p[0];
      assert (p + "/")[..n] == p[..n];
      assert (p + "/")[n..] == p[n..] + "/";
      SegmentsSlash(p[n..]);
    }
  }

  lemma AllSlashesSlash(s: string)
    ensures AllSlashes(s + "/") == AllSlashes(s)
  {
    var t := s + "/";
    if AllSlashes(s) {
      forall k | 0 <= k < |t| ensures t[k] == '/' {
        if k < |s| {
          assert t[k] == s[k];
        }
      }
    }
    if AllSlashes(t) {
      forall k | 0 <= k < |s| ensures s[k] == '/' {
        assert t[k] == s[k];
      }
    }
  }

  lemma {:induction false} ReadableRestSlash(s: string)
    ensures ReadableRest(s + "/") == ReadableRest(s)
    decreases |s|
  {
    if s == [] {
      assert s + "/" == "/";
    } else if s[0] == '/' {
      assert (s + "/")[0] == '/';
      AllSlashesSlash(s);
    } else {
      var n := SegmentLength(s);
      var a := s[..n];
      assert IsSegment(a) by {
        assert n != 0;
        assert forall k :: 0 <= k < |a| ==> a[k] == s[k];
      }
      if n == |s| {
        assert s == a;
        assert s + "/" == a + "/" + [];
        SegmentThenRest(a, []);
        SegmentAlone(a);
      } else {
        var u := s[n + 1..];
        assert s == a + "/" + u;
        assert s + "/" == a + "/" + (u + "/");
        SegmentThenRest(a, u);
        SegmentThenRest(a, u + "/");
        ReadableRestSlash(u);
      }
    }
  }

  /** Helper: past a first segment and its slash, readability is that of the rest. */
  lemma SegmentThenRest(a: string, u: string)
    requires IsSegment(a)
    ensures ReadableRest(a + "/" + u) == ReadableRest(u)
  {
    var s := a + "/" + u;
    assert s == a + ("/" + u);
    SegmentLengthOfSegment(a, "/" + u);
    assert s[0] == a[0];
    assert s[|a| + 1..] == u;
  }

  /** Helper: a lone segment is readable. */
  lemma SegmentAlone(a: string)
    requires IsSegment(a)
    ensures ReadableRest(a)
  {
    assert a + [] == a;
    SegmentLengthOfSegment(a, []);
  }

  /** A trailing slash changes nothing: `/events/` renders what `/events` does. */
  lemma TrailingSlashIgnored(path: string)
    ensures path != [] ==> Resolve(path + "/") == Resolve(path)
  {
    if path != [] {
      var q := path + "/";
      assert q[0] == path[0];
      assert q[1..] == path[1..] + "/";
      ReadableRestSlash(path[1..]);
      SegmentsSlash(path);
    }
  }

  /** An empty segment before the end is not skipped: such a path matches no route,
      and neither does a path without its leading "/". */
  lemma EmptySegmentsFallBack()
    ensures Resolve("//events") == Redirect("/")
    ensures Resolve("/organizer//create-event") == Redirect("/")
    ensures Resolve("events") == Redirect("/")
  {
    LeadingEmptySegmentUnreadable();
    InteriorEmptySegmentUnreadable();
    assert "events"[0] != '/';
  }

  lemma LeadingEmptySegmentUnreadable()
    ensures !Readable("//events")
  {
    var r := "//events"[1..];
    assert r == "/events";
    assert r[0] == '/' && r[1] == 'e';
  }

  lemma InteriorEmptySegmentUnreadable()
    ensures !Readable("/organizer//create-event")
  {
    var r := "/organizer//create-event"[1..];
    assert r == "organizer" + "/" + "/create-event";
    assert "/create-event"[1] == 'c';
    EmptySegmentAfter("organizer", "/create-event");
  }

  /** A segment followed by an empty one that is not part of the trailing slashes. */
  lemma EmptySegmentAfter(a: string, t: string)
    requires IsSegment(a) && t != [] && t[0] == '/' && !AllSlashes(t)
    ensures !ReadableRest(a + "/" + t)
  {
    var s := a + "/" + t;
    assert s == a + ("/" + t);
    SegmentLengthOfSegment(a, "/" + t);
    assert s[0] == a[0];
    assert s[|a| + 1..] == t;
  }

  /** Helper: `PathOf` unfolded on one segment. */
  lemma PathOfOne(a: string)
    ensures PathOf([a]) == "/" + a
  {
    assert [a][1..] == [];
    assert JoinSegments([a]) == "/" + a + "";
  }

  /** Helper: `PathOf` unfolded on two segments. */
  lemma PathOfTwo(a: string, b: string)
    ensures PathOf([a, b]) == "/" + a + "/" + b
  {
    assert [a, b][1..] == [b];
    PathOfOne(b);
    assert JoinSegments([a, b]) == "/" + a + JoinSegments([b]);
  }

  predicate SegMatches(seg: Seg, s: string) {
    match seg
    case Lit(name) => Lower(s) == Lower(name)
    case Param(_) => true
  }

  predicate Matches(pattern: seq<Seg>, segs: seq<string>) {
    |pattern| == |segs| && forall k :: 0 <= k < |segs| ==> SegMatches(pattern[k], segs[k])
  }

  /** The first route of `routes` whose pattern matches. */
  function FirstMatch(routes: seq<Route>, segs: seq<string>): (r: Option<nat>)
    ensures r.Some? ==> r.value < |routes| && Matches(routes[r.value].pattern, segs)
    ensures r.Some? ==> forall k :: 0 <= k < r.value ==> !Matches(routes[k].pattern, segs)
    ensures r.None? ==> forall k :: 0 <= k < |routes| ==> !Matches(routes[k].pattern, segs)
    decreases |routes|
  {
    if routes == [] then None
    else if Matches(routes[0].pattern, segs) then Some(0)
    else match FirstMatch(routes[1..], segs)
      case Some(k) => Some(k + 1)
      case None => None
  }

  /** What the router does with `path`; a path no route matches, an unreadable one
      included, hits the `*` route, which redirects to "/". */
  function Resolve(path: string): Resolution {
    if !Readable(path) then Redirect("/")
    else match FirstMatch(Table, Segments(path))
      case Some(k) => Render(Table[k].page, Table[k].guard)
      case None => Redirect("/")
  }

  /** A path is redirected to "/" exactly when it is unreadable or no route of the
      table matches it, and otherwise rendered by a matching route, ahead of which no
      route matches. */
  lemma ResolveSpec(path: string)
    ensures Resolve(path).Redirect? ==> Resolve(path).to == "/"
    ensures Resolve(path).Redirect? <==>
              !Readable(path) || forall k :: 0 <= k < |Table| ==> !Matches(Table[k].pattern, Segments(path))
    ensures Resolve(path).Render? ==>
              Readable(path)
              && exists k :: 0 <= k < |Table| && Matches(Table[k].pattern, Segments(path))
                       && Table[k].page == Resolve(path).page && Table[k].guard == Resolve(path).guard
                       && forall j :: 0 <= j < k ==> !Matches(Table[j].pattern, Segments(path))
  {
    var m := FirstMatch(Table, Segments(path));
    if Readable(path) && m.Some? {
      var k := m.value;
      assert Matches(Table[k].pattern, Segments(path));
    }
  }

  /** The guard a path falls under, read off its first segment alone: `/my-order`,
      the `/organizer` subtree, the `/admin` subtree, and nothing else. */
  function SubtreeGuard(segs: seq<string>): Guard {
    if segs == [] then Public
    else if Lower(segs[0]) == Lower("my-order") then Roles(MyOrderRoles)
    else if Lower(segs[0]) == Lower("organizer") then Roles(OrganizerRoles)
    else if Lower(segs[0]) == Lower("admin") then Roles(AdminRoles)
    else Public
  }

  lemma LowerDiffers(a: string, b: string, i: nat)
    requires i < |a| == |b| && LowerChar(a[i]) != LowerChar(b[i])
    ensures Lower(a) != Lower(b)
  {
    assert Lower(a)[i] != Lower(b)[i];
  }

  /** A first segment outside the three guarded subtrees. */
  predicate Unguarded(seg: Seg) {
    seg.Lit? && Lower(seg.name) != Lower("my-order") && Lower(seg.name) != Lower("organizer")
    && Lower(seg.name) != Lower("admin")
  }

  lemma PublicRoutesOutsideSubtrees()
    ensures forall i :: 0 <= i < |PublicRoutes| ==>
              PublicRoutes[i].guard == Public
              && (PublicRoutes[i].pattern == [] || Unguarded(PublicRoutes[i].pattern[0]))
  {
    LowerDiffers("admin", "about", 1);
    LowerDiffers("admin", "login", 0);
    LowerDiffers("my-order", "register", 0);
  }

  lemma GuardedRoutesInSubtrees()
    ensures forall i :: 0 <= i < |MyOrderRoutes| ==>
              MyOrderRoutes[i].guard == Roles(MyOrderRoles) && MyOrderRoutes[i].pattern[..1] == [Lit("my-order")]
    ensures forall i :: 0 <= i < |OrganizerRoutes| ==>
              OrganizerRoutes[i].guard == Roles(OrganizerRoles) && OrganizerRoutes[i].pattern[..1] == [Lit("organizer")]
    ensures forall i :: 0 <= i < |AdminRoutes| ==>
              AdminRoutes[i].guard == Roles(AdminRoles) && AdminRoutes[i].pattern[..1] == [Lit("admin")]
  {
  }

  lemma PublicGuard(segs: seq<string>, i: nat)
    requires i < |PublicRoutes| && Matches(PublicRoutes[i].pattern, segs)
    ensures PublicRoutes[i].guard == SubtreeGuard(segs)
  {
    PublicRoutesOutsideSubtrees();
    if segs != [] {
      assert SegMatches(PublicRoutes[i].pattern[0], segs[0]);
    }
  }

  /** A route of a guarded group whose pattern starts with the group's name. */
  lemma GroupGuard(r: Route, name: string, segs: seq<string>)
    requires |r.pattern| >= 1 && r.pattern[0] == Lit(name) && Matches(r.pattern, segs)
    requires r.guard == SubtreeGuard([name])
    ensures r.guard == SubtreeGuard(segs)
  {
    assert SegMatches(r.pattern[0], segs[0]);
    assert Lower(segs[0]) == Lower([name][0]);
  }

  /** Every page is guarded exactly as its subtree is: the whole `/organizer` subtree
      by {organizer, admin}, the whole `/admin` subtree by {admin}, `/my-order` by
      {user, organizer, admin}, and every page under `UserLayout` by nothing. */
  lemma GuardBySubtree(path: string)
    ensures Resolve(path).Render? ==> Resolve(path).guard == SubtreeGuard(Segments(path))
  {
    var segs := Segments(path);
    var m := FirstMatch(Table, segs);
    if Readable(path) && m.Some? {
      var k := m.value;
      TableIndex(k);
      if k < 13 {
        PublicGuard(segs, k);
      } else if k < 14 {
        GuardedRoutesInSubtrees();
        assert MyOrderRoutes[k - 13].pattern[..1] == [Lit("my-order")];
        GroupGuard(Table[k], "my-order", segs);
      } else if k < 25 {
        GuardedRoutesInSubtrees();
        assert OrganizerRoutes[k - 14].pattern[..1] == [Lit("organizer")];
        GroupGuard(Table[k], "organizer", segs);
      } else {
        GuardedRoutesInSubtrees();
        assert AdminRoutes[k - 25].pattern[..1] == [Lit("admin")];
        GroupGuard(Table[k], "admin", segs);
      }
    }
  }

  predicate NoneMatch(routes: seq<Route>, segs: seq<string>) {
    forall i :: 0 <= i < |routes| ==> !Matches(routes[i].pattern, segs)
  }

  /** A path that no group of the table matches falls through to the `*` route. */
  lemma FallsBack(segs: seq<string>)
    requires forall k :: 0 <= k < |segs| ==> IsSegment(segs[k])
    requires NoneMatch(PublicRoutes, segs) && NoneMatch(MyOrderRoutes, segs)
    requires NoneMatch(OrganizerRoutes, segs) && NoneMatch(AdminRoutes, segs)
    ensures Resolve(PathOf(segs)) == Redirect("/")
  {
    SegmentsOfPath(segs);
    NoneMatchAppend(PublicRoutes, MyOrderRoutes, segs);
    NoneMatchAppend(PublicRoutes + MyOrderRoutes, OrganizerRoutes, segs);
    NoneMatchAppend(PublicRoutes + MyOrderRoutes + OrganizerRoutes, AdminRoutes, segs);
  }

  lemma TableIndex(k: nat)
    requires k < |Table|
    ensures k < 13 ==> Table[k] == PublicRoutes[k]
    ensures 13 <= k < 14 ==> Table[k] == MyOrderRoutes[k - 13]
    ensures 14 <= k < 25 ==> Table[k] == OrganizerRoutes[k - 14]
    ensures 25 <= k ==> Table[k] == AdminRoutes[k - 25]
  {
  }

  lemma FirstMatchAt(routes: seq<Route>, segs: seq<string>, i: nat)
    requires i < |routes| && NoneMatch(routes[..i], segs) && Matches(routes[i].pattern, segs)
    ensures FirstMatch(routes, segs) == Some(i)
  {
  }

  lemma NoneMatchAppend(a: seq<Route>, b: seq<Route>, segs: seq<string>)
    requires NoneMatch(a, segs) && NoneMatch(b, segs)
    ensures NoneMatch(a + b, segs)
  {
    forall i | 0 <= i < |a + b| ensures !Matches((a + b)[i].pattern, segs) {
      if i >= |a| {
        assert (a + b)[i] == b[i - |a|];
      }
    }
  }

  lemma TableResolves(segs: seq<string>, k: nat)
    requires forall i :: 0 <= i < |segs| ==> IsSegment(segs[i])
    requires k < |Table| && NoneMatch(Table[..k], segs) && Matches(Table[k].pattern, segs)
    ensures Resolve(PathOf(segs)) == Render(Table[k].page, Table[k].guard)
  {
    SegmentsOfPath(segs);
    FirstMatchAt(Table, segs, k);
  }

  lemma ResolvesInPublic(segs: seq<string>, i: nat)
    requires forall k :: 0 <= k < |segs| ==> IsSegment(segs[k])
    requires i < |PublicRoutes| && NoneMatch(PublicRoutes[..i], segs)
    requires Matches(PublicRoutes[i].pattern, segs)
    ensures Resolve(PathOf(segs)) == Render(PublicRoutes[i].page, Public)
  {
    TablePrefixes(i);
    TableIndex(i);
    PublicRoutesOutsideSubtrees();
    TableResolves(segs, i);
  }

  lemma ResolvesInOrganizer(segs: seq<string>, i: nat)
    requires forall k :: 0 <= k < |segs| ==> IsSegment(segs[k])
    requires NoneMatch(PublicRoutes, segs) && NoneMatch(MyOrderRoutes, segs)
    requires i < |OrganizerRoutes| && NoneMatch(OrganizerRoutes[..i], segs)
    requires Matches(OrganizerRoutes[i].pattern, segs)
    ensures Resolve(PathOf(segs)) == Render(OrganizerRoutes[i].page, Roles(OrganizerRoles))
  {
    NoneMatchAppend(PublicRoutes, MyOrderRoutes, segs);
    NoneMatchAppend(PublicRoutes + MyOrderRoutes, OrganizerRoutes[..i], segs);
    TablePrefixes(14 + i);
    TableIndex(14 + i);
    GuardedRoutesInSubtrees();
    TableResolves(segs, 14 + i);
  }

  lemma ResolvesInAdmin(segs: seq<string>, i: nat)
    requires forall k :: 0 <= k < |segs| ==> IsSegment(segs[k])
    requires NoneMatch(PublicRoutes, segs) && NoneMatch(MyOrderRoutes, segs)
    requires NoneMatch(OrganizerRoutes, segs)
    requires i < |AdminRoutes| && NoneMatch(AdminRoutes[..i], segs)
    requires Matches(AdminRoutes[i].pattern, segs)
    ensures Resolve(PathOf(segs)) == Render(AdminRoutes[i].page, Roles(AdminRoles))
  {
    NoneMatchAppend(PublicRoutes, MyOrderRoutes, segs);
    NoneMatchAppend(PublicRoutes + MyOrderRoutes, OrganizerRoutes, segs);
    NoneMatchAppend(PublicRoutes + MyOrderRoutes + OrganizerRoutes, AdminRoutes[..i], segs);
    TablePrefixes(25 + i);
    TableIndex(25 + i);
    GuardedRoutesInSubtrees();
    TableResolves(segs, 25 + i);
  }

  /** The first `k` routes of the table, group by group. */
  lemma TablePrefixes(k: nat)
    requires k < |Table|
    ensures k < 13 ==> Table[..k] == PublicRoutes[..k]
    ensures 14 <= k < 25 ==> Table[..k] == PublicRoutes + MyOrderRoutes + OrganizerRoutes[..k - 14]
    ensures 25 <= k ==> Table[..k] == PublicRoutes + MyOrderRoutes + OrganizerRoutes + AdminRoutes[..k - 25]
  {
    var ab := PublicRoutes + MyOrderRoutes;
    var abc := ab + OrganizerRoutes;
    if k < 13 {
      PrefixWithin(PublicRoutes, MyOrderRoutes + OrganizerRoutes + AdminRoutes, k);
      assert Table == PublicRoutes + (MyOrderRoutes + OrganizerRoutes + AdminRoutes);
    } else if 14 <= k < 25 {
      PrefixWithin(abc, AdminRoutes, k);
      PrefixAcross(ab, OrganizerRoutes, k - 14);
    } else if 25 <= k {
      PrefixAcross(abc, AdminRoutes, k - 25);
    }
  }

  lemma PrefixWithin<T>(x: seq<T>, y: seq<T>, n: nat)
    requires n <= |x|
    ensures (x + y)[..n] == x[..n]
  {
  }

  lemma PrefixAcross<T>(x: seq<T>, y: seq<T>, n: nat)
    requires n <= |y|
    ensures (x + y)[..|x| + n] == x + y[..n]
  {
  }

  // ---- no two routes overlap ----

  /** Both patterns have a literal at position `i`, and the two differ whatever the
      case of the path. */
  predicate LitsDiffer(p: seq<Seg>, q: seq<Seg>, i: nat) {
    i < |p| && i < |q| && p[i].Lit? && q[i].Lit? && Lower(p[i].name) != Lower(q[i].name)
  }

  /** Two patterns that no path can match both: their lengths differ, or one of
      their first three positions holds two different literals. */
  predicate Apart(p: seq<Seg>, q: seq<Seg>) {
    |p| != |q| || LitsDiffer(p, q, 0) || LitsDiffer(p, q, 1) || LitsDiffer(p, q, 2)
  }

  lemma ApartExcludes(p: seq<Seg>, q: seq<Seg>, segs: seq<string>)
    requires Apart(p, q)
    ensures !(Matches(p, segs) && Matches(q, segs))
  {
  }

  lemma PublicApart(j: nat, k: nat)
    requires j < k < |PublicRoutes|
    ensures Apart(PublicRoutes[j].pattern, PublicRoutes[k].pattern)
  {
    if k < 7 {
      PublicApartBefore(j, k);
    } else {
      PublicApartAfter(j, k);
    }
  }

  lemma PublicApartBefore(j: nat, k: nat)
    requires j < k < 7
    ensures Apart(PublicRoutes[j].pattern, PublicRoutes[k].pattern)
  {
  }

  lemma PublicApartAfter(j: nat, k: nat)
    requires j < k < |PublicRoutes| && 7 <= k
    ensures Apart(PublicRoutes[j].pattern, PublicRoutes[k].pattern)
  {
    if k == 7 {
      LowerDiffers("about", "login", 0);
    } else if k == 10 {
      LowerDiffers("contact", "payment", 0);
    } else if k == 11 {
      LowerDiffers("seat-selection", "verify-payment", 0);
    } else if k == 12 {
      LowerDiffers("seat-selection", "ticket-success", 0);
      LowerDiffers("verify-payment", "ticket-success", 0);
    }
  }

  lemma OrganizerApart(j: nat, k: nat)
    requires j < k < |OrganizerRoutes|
    ensures Apart(OrganizerRoutes[j].pattern, OrganizerRoutes[k].pattern)
  {
    LowerDiffers("create-event", "create-venue", 7);
  }

  lemma AdminApart(j: nat, k: nat)
    requires j < k < |AdminRoutes|
    ensures Apart(AdminRoutes[j].pattern, AdminRoutes[k].pattern)
  {
    LowerDiffers("users", "media", 0);
    LowerDiffers("events", "orders", 0);
    LowerDiffers("events", "venues", 0);
    LowerDiffers("orders", "venues", 0);
  }

  lemma SubtreeHead(k: nat)
    requires 13 <= k < |Table|
    ensures |Table[k].pattern| >= 1
    ensures Table[k].pattern[0]
            == Lit(if k == 13 then "my-order" else if k < 25 then "organizer" else "admin")
  {
    TableIndex(k);
    GuardedRoutesInSubtrees();
    if k == 13 {
      assert MyOrderRoutes[0].pattern[..1][0] == Lit("my-order");
    } else if k < 25 {
      assert OrganizerRoutes[k - 14].pattern[..1][0] == Lit("organizer");
    } else {
      assert AdminRoutes[k - 25].pattern[..1][0] == Lit("admin");
    }
  }

  lemma TableApart(j: nat, k: nat)
    requires j < k < |Table|
    ensures Apart(Table[j].pattern, Table[k].pattern)
  {
    if k < 13 {
      TableIndex(j);
      TableIndex(k);
      PublicApart(j, k);
    } else if j < 13 {
      PublicApartFromSubtree(j, k);
    } else {
      SubtreesApart(j, k);
    }
  }

  lemma PublicApartFromSubtree(j: nat, k: nat)
    requires j < 13 <= k < |Table|
    ensures Apart(Table[j].pattern, Table[k].pattern)
  {
    TableIndex(j);
    SubtreeHead(k);
    PublicRoutesOutsideSubtrees();
  }

  lemma SubtreesApart(j: nat, k: nat)
    requires 13 <= j < k < |Table|
    ensures Apart(Table[j].pattern, Table[k].pattern)
  {
    SubtreeHead(j);
    SubtreeHead(k);
    if 14 <= j && k < 25 {
      TableIndex(j);
      TableIndex(k);
      OrganizerApart(j - 14, k - 14);
    } else if 25 <= j {
      TableIndex(j);
      TableIndex(k);
      AdminApart(j - 25, k - 25);
    }
  }

  /** No path is matched by two routes of the table. */
  lemma NoTwoRoutesMatch(segs: seq<string>, j: nat, k: nat)
    requires j < k < |Table|
    ensures !(Matches(Table[j].pattern, segs) && Matches(Table[k].pattern, segs))
  {
    TableApart(j, k);
    ApartExcludes(Table[j].pattern, Table[k].pattern, segs);
  }

  /** Whichever route matches a path is the one rendered: the table has no overlapping
      routes, so taking the first match in JSX order and ranking the matches as
      react-router does pick the same route. */
  lemma MatchingRouteRenders(path: string, k: nat)
    requires k < |Table| && Matches(Table[k].pattern, Segments(path))
    ensures Resolve(path) == if Readable(path) then Render(Table[k].page, Table[k].guard) else Redirect("/")
  {
    OnlyMatchIsFirst(Segments(path), k);
  }

  lemma OnlyMatchIsFirst(segs: seq<string>, k: nat)
    requires k < |Table| && Matches(Table[k].pattern, segs)
    ensures FirstMatch(Table, segs) == Some(k)
  {
    var m := FirstMatchNoLater(Table, segs, k);
    if m < k {
      NoTwoRoutesMatch(segs, m, k);
    }
  }

  /** A route that matches is the first match or comes after it. */
  lemma FirstMatchNoLater(routes: seq<Route>, segs: seq<string>, k: nat) returns (m: nat)
    requires k < |routes| && Matches(routes[k].pattern, segs)
    ensures FirstMatch(routes, segs) == Some(m) && m <= k
    ensures Matches(routes[m].pattern, segs)
  {
    m := FirstMatch(routes, segs).value;
  }
}
