/** The landing page (src/pages/userPage/HomePage.tsx): the links built from the
    demo categories, venues and events, and where they lead. */
module HomePage {
  import opened Base
  import opened Text
  import opened Seqs
  import opened AppRoutes
  import EventsPage

  // ---- the venue slug `name.replace(/\s+/g, '-').toLowerCase()` ----

  /** Every maximal run of whitespace replaced by one '-', read left to right;
      `inRun` says the character before `s` was whitespace already replaced. */
  function ReplaceRuns(s: string, inRun: bool): (r: string)
    ensures |r| <= |s|
    decreases |s|
  {
    if s == [] then []
    else if IsSpace(s[0]) then (if inRun then [] else "-") + ReplaceRuns(s[1..], true)
    else [s[0]] + ReplaceRuns(s[1..], false)
  }

  function ReplaceSpaceRuns(s: string): string {
    ReplaceRuns(s, false)
  }

  function Slug(name: string): string {
    Lower(ReplaceSpaceRuns(name))
  }

  lemma {:induction false} ReplacedHasNoSpace(s: string, inRun: bool)
    ensures NoSpace(ReplaceRuns(s, inRun))
    decreases |s|
  {
    if s != [] {
      ReplacedHasNoSpace(s[1..], IsSpace(s[0]));
    }
  }

  lemma {:induction false} ReplaceWithoutSpace(s: string, inRun: bool)
    requires NoSpace(s)
    ensures ReplaceRuns(s, inRun) == s
    decreases |s|
  {
    if s != [] {
      assert !IsSpace(s[0]);
      ReplaceWithoutSpace(s[1..], false);
      assert [s[0]] + s[1..] == s;
    }
  }

  lemma LowerKeepsNoSpace(s: string)
    requires NoSpace(s)
    ensures NoSpace(Lower(s))
  {
    forall i | 0 <= i < |s| ensures !IsSpace(Lower(s)[i]) {
      assert !IsSpace(s[i]);
    }
  }

  /** A slug has no whitespace and no upper-case letter, and making a slug of a slug
      changes nothing. */
  lemma SlugShape(name: string)
    ensures NoSpace(Slug(name)) && NoUpper(Slug(name))
    ensures Slug(Slug(name)) == Slug(name)
  {
    var r := ReplaceSpaceRuns(name);
    ReplacedHasNoSpace(name, false);
    LowerKeepsNoSpace(r);
    LowerHasNoUpper(r);
    ReplaceWithoutSpace(Lower(r), false);
    LowerOfLowerCase(Lower(r));
  }

  /** One whitespace run between two parts becomes exactly one '-': with `a` not
      ending and `b` not starting in whitespace, the run `w` is replaced by "-". */
  lemma RunBecomesOneDash(a: string, w: string, b: string)
    requires a == [] || !IsSpace(a[|a| - 1])
    requires w != [] && AllSpace(w)
    requires b == [] || !IsSpace(b[0])
    ensures ReplaceSpaceRuns(a + w + b) == ReplaceSpaceRuns(a) + "-" + ReplaceSpaceRuns(b)
  {
    assert a + w + b == a + (w + b);
    ReplaceAppend(a, w + b, false);
    DropRun(w, b, false);
  }

  /** Replacing distributes over a split right after a non-space character. */
  lemma {:induction false} ReplaceAppend(x: string, y: string, inRun: bool)
    requires x != [] ==> !IsSpace(x[|x| - 1])
    ensures ReplaceRuns(x + y, inRun) == ReplaceRuns(x, inRun) + ReplaceRuns(y, x == [] && inRun)
    decreases |x|
  {
    if x == [] {
      assert x + y == y;
    } else {
      var t := x[1..];
      assert (x + y)[0] == x[0] && (x + y)[1..] == t + y;
      if t != [] {
        assert t[|t| - 1] == x[|x| - 1];
      } else {
        assert !IsSpace(x[0]);
      }
      ReplaceAppend(t, y, IsSpace(x[0]));
    }
  }

  /** A whitespace run followed by a non-space is replaced by one '-' (by nothing when
      a run was already open). */
  lemma {:induction false} DropRun(w: string, b: string, inRun: bool)
    requires w != [] && AllSpace(w)
    requires b == [] || !IsSpace(b[0])
    ensures ReplaceRuns(w + b, inRun) == (if inRun then "" else "-") + ReplaceRuns(b, false)
    decreases |w|
  {
    assert (w + b)[0] == w[0] && (w + b)[1..] == w[1..] + b;
    if |w| == 1 {
      assert w[1..] + b == b;
      if b != [] {
        assert ReplaceRuns(b, true) == ReplaceRuns(b, false);
      }
    } else {
      assert AllSpace(w[1..]) by {
        forall i | 0 <= i < |w[1..]| ensures IsSpace(w[1..][i]) {
          assert w[1..][i] == w[i + 1];
        }
      }
      DropRun(w[1..], b, true);
    }
  }

  // ---- the links ----

  /** A category card's link. */
  function CategoryLink(name: string): string {
    "/events-by-category/" + Lower(name)
  }

  /** A venue card's link. */
  function VenueLink(name: string): string {
    "/events-by-venue/" + Slug(name)
  }

  lemma CategoryMissesEarlierRoutes(segs: seq<string>)
    requires |segs| == 2
    ensures NoneMatch(PublicRoutes[..3], segs)
  {
    var pre := PublicRoutes[..3];
    forall i | 0 <= i < 3 ensures |pre[i].pattern| != 2 {
    }
  }

  /** A category link whose lower-cased name is one path segment opens the public
      category page, with that name as its parameter. */
  lemma CategoryLinkResolves(name: string)
    requires IsSegment(Lower(name))
    ensures Resolve(CategoryLink(name)) == Render(CategoryEventsPage, Public)
    ensures Segments(CategoryLink(name)) == ["events-by-category", Lower(name)]
  {
    CategoryPathResolves(Lower(name));
  }

  lemma CategoryPathResolves(x: string)
    requires IsSegment(x)
    ensures Resolve("/events-by-category/" + x) == Render(CategoryEventsPage, Public)
    ensures Segments("/events-by-category/" + x) == ["events-by-category", x]
  {
    var segs := ["events-by-category", x];
    CategoryPath(x);
    assert IsSegment(segs[0]);
    SegmentsOfPath(segs);
    CategorySegmentsResolve(segs);
  }

  lemma CategoryPath(x: string)
    ensures PathOf(["events-by-category", x]) == "/events-by-category/" + x
  {
    PathOfTwo("events-by-category", x);
    assert "/" + "events-by-category" + "/" == "/events-by-category/";
  }

  lemma CategorySegmentsResolve(segs: seq<string>)
    requires |segs| == 2 && segs[0] == "events-by-category" && IsSegment(segs[1])
    ensures Resolve(PathOf(segs)) == Render(CategoryEventsPage, Public)
  {
    assert IsSegment(segs[0]);
    CategoryMissesEarlierRoutes(segs);
    assert Matches(PublicRoutes[3].pattern, segs);
    ResolvesInPublic(segs, 3);
  }

  lemma SlugKeepsSegment(name: string)
    requires IsSegment(name)
    ensures IsSegment(Slug(name))
  {
    SlugNoSlash(name);
  }

  lemma {:induction false} ReplaceNoSlash(s: string, inRun: bool)
    requires '/' !in s
    ensures '/' !in ReplaceRuns(s, inRun)
    decreases |s|
  {
    if s != [] {
      assert s[0] != '/' && '/' !in s[1..];
      ReplaceNoSlash(s[1..], IsSpace(s[0]));
    }
  }

  lemma SlugNoSlash(name: string)
    requires IsSegment(name)
    ensures '/' !in Slug(name) && Slug(name) != []
  {
    ReplaceNoSlash(name, false);
    var r := ReplaceSpaceRuns(name);
    assert r != [] by {
      if IsSpace(name[0]) {
        assert r[0] == '-';
      } else {
        assert r[0] == name[0];
      }
    }
    forall i | 0 <= i < |r| ensures Lower(r)[i] != '/' {
      assert r[i] in r;
    }
  }

  /** No route of the table has "events-by-venue" as its first segment, so every
      venue card link falls through to the `*` route and lands on "/". */
  lemma VenueLinkLandsOnRoot(name: string)
    requires IsSegment(name)
    ensures Resolve(VenueLink(name)) == Redirect("/")
  {
    SlugKeepsSegment(name);
    VenuePathLandsOnRoot(Slug(name));
  }

  /** "/events-by-venue/x" lands on "/" for every single segment `x`. */
  lemma VenuePathLandsOnRoot(x: string)
    requires IsSegment(x)
    ensures Resolve("/events-by-venue/" + x) == Redirect("/")
  {
    var segs := ["events-by-venue", x];
    PathOfTwo("events-by-venue", x);
    assert "/" + "events-by-venue" + "/" == "/events-by-venue/";
    assert IsSegment(segs[0]);
    VenueSegmentsFallBack(segs);
  }

  lemma VenueSegmentsFallBack(segs: seq<string>)
    requires |segs| == 2 && segs[0] == "events-by-venue" && IsSegment(segs[1])
    ensures Resolve(PathOf(segs)) == Redirect("/")
  {
    assert IsSegment(segs[0]);
    VenueSegmentMisses(segs);
    FallsBack(segs);
  }

  lemma VenueSegmentMisses(segs: seq<string>)
    requires |segs| == 2 && segs[0] == "events-by-venue"
    ensures NoneMatch(PublicRoutes, segs) && NoneMatch(MyOrderRoutes, segs)
    ensures NoneMatch(OrganizerRoutes, segs) && NoneMatch(AdminRoutes, segs)
  {
    forall i | 0 <= i < |PublicRoutes| ensures !Matches(PublicRoutes[i].pattern, segs) {
      if |PublicRoutes[i].pattern| == 2 {
        assert !SegMatches(PublicRoutes[i].pattern[0], segs[0]);
      }
    }
    forall i | 0 <= i < |OrganizerRoutes| ensures !Matches(OrganizerRoutes[i].pattern, segs) {
      if |OrganizerRoutes[i].pattern| == 2 {
        assert !SegMatches(OrganizerRoutes[i].pattern[0], segs[0]);
      }
    }
    forall i | 0 <= i < |AdminRoutes| ensures !Matches(AdminRoutes[i].pattern, segs) {
      if |AdminRoutes[i].pattern| == 2 {
        assert !SegMatches(AdminRoutes[i].pattern[0], segs[0]);
      }
    }
  }

  /** The "View All" link of the category section points at a path no route has, so
      it lands on "/". */
  lemma CategoriesViewAllLandsOnRoot()
    ensures Resolve("/categories-list") == Redirect("/")
  {
    CategoriesListMisses();
    assert "/" + "categories-list" == "/categories-list";
    OneSegmentFallsBack("categories-list");
  }

  /** So does the "View All" link of the venue section. */
  lemma VenuesViewAllLandsOnRoot()
    ensures Resolve("/venues") == Redirect("/")
  {
    VenuesMisses();
    assert "/" + "venues" == "/venues";
    OneSegmentFallsBack("venues");
  }

  lemma CategoriesListMisses()
    ensures NoneMatch(PublicRoutes, ["categories-list"])
  {
    forall i | 0 <= i < |PublicRoutes| ensures !Matches(PublicRoutes[i].pattern, ["categories-list"]) {
      if |PublicRoutes[i].pattern| == 1 {
        assert |Lower(PublicRoutes[i].pattern[0].name)| != |Lower("categories-list")|;
      }
    }
  }

  lemma VenuesMisses()
    ensures NoneMatch(PublicRoutes, ["venues"])
  {
    LowerDiffers("venues", "events", 0);
    forall i | 0 <= i < |PublicRoutes| ensures !Matches(PublicRoutes[i].pattern, ["venues"]) {
      if i == 1 {
        assert !SegMatches(PublicRoutes[1].pattern[0], "venues");
      } else if |PublicRoutes[i].pattern| == 1 {
        assert |Lower(PublicRoutes[i].pattern[0].name)| != |Lower("venues")|;
      }
    }
  }

  /** The "View All" link of the upcoming section opens the public events page. */
  lemma EventsViewAllResolves()
    ensures Resolve("/events") == Render(AppRoutes.EventsPage, Public)
  {
    var segs := ["events"];
    PathOfOne("events");
    assert IsSegment(segs[0]);
    assert !Matches(PublicRoutes[0].pattern, segs);
    assert NoneMatch(PublicRoutes[..1], segs);
    assert Matches(PublicRoutes[1].pattern, segs);
    ResolvesInPublic(segs, 1);
  }

  /** The "View All" and "Read More" links of the media section land on "/" too. */
  lemma MediaLinksLandOnRoot()
    ensures Resolve("/media") == Redirect("/")
  {
    MediaMisses();
    LowerDiffers("media", "admin", 0);
    assert "/" + "media" == "/media";
    OneSegmentFallsBack("media");
  }

  lemma MediaMisses()
    ensures NoneMatch(PublicRoutes, ["media"])
  {
    LowerDiffers("media", "about", 0);
    LowerDiffers("media", "login", 0);
    forall i | 0 <= i < |PublicRoutes| ensures !Matches(PublicRoutes[i].pattern, ["media"]) {
      if i == 6 {
        assert !SegMatches(PublicRoutes[6].pattern[0], "media");
      } else if i == 7 {
        assert !SegMatches(PublicRoutes[7].pattern[0], "media");
      } else if |PublicRoutes[i].pattern| == 1 {
        assert |Lower(PublicRoutes[i].pattern[0].name)| != |Lower("media")|;
      }
    }
  }

  /** A one-segment path that no public route has and that is not one of the three
      guarded subtrees falls through to `*`. */
  lemma OneSegmentFallsBack(name: string)
    requires IsSegment(name) && NoneMatch(PublicRoutes, [name])
    requires Lower(name) != Lower("my-order") && Lower(name) != Lower("organizer") && Lower(name) != Lower("admin")
    ensures Resolve("/" + name) == Redirect("/")
  {
    var segs := [name];
    PathOfOne(name);
    forall i | 0 <= i < |OrganizerRoutes| ensures !Matches(OrganizerRoutes[i].pattern, segs) {
      if |OrganizerRoutes[i].pattern| == 1 {
        assert !SegMatches(OrganizerRoutes[i].pattern[0], segs[0]);
      }
    }
    forall i | 0 <= i < |AdminRoutes| ensures !Matches(AdminRoutes[i].pattern, segs) {
      if |AdminRoutes[i].pattern| == 1 {
        assert !SegMatches(AdminRoutes[i].pattern[0], segs[0]);
      }
    }
    assert !SegMatches(MyOrderRoutes[0].pattern[0], segs[0]);
    FallsBack(segs);
  }

  /** The ids of the demo upcoming events. */
  const UpcomingIds: seq<nat> := [1, 2, 3, 4, 5, 6, 7, 8]

  /** The detail links of a list of event cards, in order. */
  function DetailLinks(ids: seq<nat>): (links: seq<string>)
    ensures |links| == |ids|
    ensures forall k :: 0 <= k < |ids| ==> links[k] == EventsPage.DetailLink(NatToString(ids[k]))
  {
    if ids == [] then [] else [EventsPage.DetailLink(NatToString(ids[0]))] + DetailLinks(ids[1..])
  }

  /** The demo event cards have distinct ids, so distinct links (and React keys). */
  lemma UpcomingLinksDistinct()
    ensures Distinct(UpcomingIds)
    ensures Distinct(DetailLinks(UpcomingIds))
  {
    var links := DetailLinks(UpcomingIds);
    forall i, j | 0 <= i < j < |links| ensures links[i] != links[j] {
      if links[i] == links[j] {
        var p := "/user-event-detail/";
        assert links[i][|p|..] == NatToString(UpcomingIds[i]);
        assert links[j][|p|..] == NatToString(UpcomingIds[j]);
        NatToStringInjective(UpcomingIds[i], UpcomingIds[j]);
      }
    }
  }
}
