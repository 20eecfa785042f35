/** The public events page (src/pages/userPage/EventsPage.tsx): the card image, the
    two sections cut from the fetched list, the price text and the links. */
module EventsPage {
  import opened Base
  import opened Text
  import AppRoutes

  /** The fields of a listed event the page reads; absent ones are None. */
  datatype ListedEvent = ListedEvent(id: string, title: string, image: Option<string>, normalPrice: Option<int>)

  const Placeholder: string := "https://picsum.photos/300/200"

  /** The card image: `image && image.startsWith("http") ? image : image ?
      `${BASE_URL}/uploads/${image}` : placeholder`. */
  function ImageUrl(baseUrl: string, image: Option<string>): string {
    if image.Some? && image.value != "" && StartsWith(image.value, "http") then image.value
    else if image.Some? && image.value != "" then baseUrl + "/uploads/" + image.value
    else Placeholder
  }

  /** An absolute image is used as it is; any other non-empty image is served from
      the server's uploads, so the URL starts with the server's address and ends with
      the image; without an image the placeholder shows. */
  lemma ImageUrlCases(baseUrl: string, image: Option<string>)
    ensures var url := ImageUrl(baseUrl, image);
            (image.Some? && StartsWith(image.value, "http") ==> url == image.value)
            && (image.Some? && image.value != "" && !StartsWith(image.value, "http") ==>
                  StartsWith(url, baseUrl + "/uploads/") && |url| == |baseUrl| + 9 + |image.value|
                  && url[|url| - |image.value|..] == image.value)
            && (image.None? || image.value == "" ==> url == Placeholder)
  {
    var url := ImageUrl(baseUrl, image);
    if image.Some? && image.value != "" && !StartsWith(image.value, "http") {
      assert url[|url| - |image.value|..] == image.value;
      assert url[..|baseUrl| + 9] == baseUrl + "/uploads/";
    }
  }

  /** `events.slice(0, n)`. */
  function Take<T>(s: seq<T>, n: nat): (r: seq<T>)
    ensures |r| == if |s| < n then |s| else n
    ensures r == s[..|r|]
  {
    if |s| <= n then s else s[..n]
  }

  function Upcoming<T>(events: seq<T>): seq<T> { Take(events, 9) }
  function Popular<T>(events: seq<T>): seq<T> { Take(events, 8) }

  /** The sections show the first nine and the first eight events in the fetched
      order, so the popular section is the upcoming one less its ninth card. */
  lemma SectionsArePrefixes<T>(events: seq<T>)
    ensures |Upcoming(events)| == (if |events| < 9 then |events| else 9)
    ensures |Popular(events)| == (if |events| < 8 then |events| else 8)
    ensures Upcoming(events) == events[..|Upcoming(events)|]
    ensures Popular(events) == Upcoming(events)[..|Popular(events)|]
  {
  }

  /** `{event.normalPrice?.price ?? "N/A"} ETB`: `??` keeps a 0 price. */
  function PriceText(p: Option<int>): (shown: string)
    ensures p.None? ==> shown == "N/A ETB"
    ensures p.Some? ==> shown == IntToString(p.value) + " ETB" && ParseInt(shown[..|shown| - 4]) == p
  {
    if p.Some? then
      var t := IntToString(p.value);
      ParseIntOfIntToString(p.value);
      assert (t + " ETB")[..|t|] == t;
      t + " ETB"
    else "N/A ETB"
  }

  /** The "View All" link of both sections counts every fetched event. */
  function ViewAllText(events: seq<ListedEvent>): (shown: string)
    ensures |shown| > 10 && shown[..10] == "View All (" && shown[|shown| - 1] == ')'
    ensures ParseInt(shown[10..|shown| - 1]) == Some(|events|)
  {
    var n := NatToString(|events|);
    ParseIntOfNatToString(|events|);
    assert ("View All (" + n + ")")[10..|n| + 10] == n;
    "View All (" + n + ")"
  }

  /** A card's link. */
  function DetailLink(id: string): string {
    "/user-event-detail/" + id
  }

  lemma DetailMissesEarlierRoutes(segs: seq<string>)
    requires |segs| == 2 && segs[0] == "user-event-detail"
    ensures AppRoutes.NoneMatch(AppRoutes.PublicRoutes[..4], segs)
  {
    var pre := AppRoutes.PublicRoutes[..4];
    forall i | 0 <= i < 4 ensures !AppRoutes.Matches(pre[i].pattern, segs) {
      if i == 3 {
        assert |Lower("events-by-category")| != |Lower("user-event-detail")|;
        assert !AppRoutes.SegMatches(pre[i].pattern[0], segs[0]);
      }
    }
  }

  /** A card link to an id that is a single path segment opens the public detail
      page for that id. */
  lemma DetailLinkResolves(id: string)
    requires AppRoutes.IsSegment(id)
    ensures AppRoutes.Resolve(DetailLink(id)) == AppRoutes.Render(AppRoutes.UserEventDetailPage, AppRoutes.Public)
    ensures AppRoutes.Segments(DetailLink(id)) == ["user-event-detail", id]
  {
    var segs := ["user-event-detail", id];
    DetailPath(id);
    assert AppRoutes.IsSegment(segs[0]);
    AppRoutes.SegmentsOfPath(segs);
    DetailSegmentsResolve(segs);
  }

  lemma DetailPath(id: string)
    ensures AppRoutes.PathOf(["user-event-detail", id]) == DetailLink(id)
  {
    AppRoutes.PathOfTwo("user-event-detail", id);
    assert "/" + "user-event-detail" + "/" == "/user-event-detail/";
  }

  lemma DetailSegmentsResolve(segs: seq<string>)
    requires |segs| == 2 && segs[0] == "user-event-detail" && AppRoutes.IsSegment(segs[1])
    ensures AppRoutes.Resolve(AppRoutes.PathOf(segs)) == AppRoutes.Render(AppRoutes.UserEventDetailPage, AppRoutes.Public)
  {
    assert AppRoutes.IsSegment(segs[0]);
    DetailMissesEarlierRoutes(segs);
    assert AppRoutes.Matches(AppRoutes.PublicRoutes[4].pattern, segs);
    AppRoutes.ResolvesInPublic(segs, 4);
  }

  class EventsPageState {
    var events: seq<ListedEvent>
    var loading: bool

    constructor ()
      ensures events == [] && loading
    {
      events := [];
      loading := true;
    }

    /** The mount effect, with `fetched` what `getEvents` returned (it turns every
        failure into an empty list itself). */
    method FetchEvents(fetched: seq<ListedEvent>)
      modifies this
      ensures events == fetched && !loading
    {
      loading := true;
      events := fetched;
      loading := false;
    }
  }
}
