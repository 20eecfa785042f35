/** The "Popular Venues" strip (src/components/Venues.tsx): the 20-character name
    truncation, where a card's "Explore" link goes, and the state its fetch leaves. */
module Venues {
  import opened Base
  import opened AppRoutes
  import HomePage

  /** A venue as this component reads it; `name` may be missing. */
  datatype Venue = Venue(id: string, name: Option<string>, address: string, image: string)

  const MaxShown: nat := 20
  const Ellipsis: string := "..."

  /** `name?.length > 20 ? name.substring(0, 20) + '...' : name`, rendering a missing
      name as nothing. */
  function DisplayName(name: Option<string>): (shown: string)
    ensures name.None? ==> shown == ""
    ensures name.Some? && |name.value| <= MaxShown ==> shown == name.value
    ensures name.Some? && |name.value| > MaxShown ==>
              |shown| == MaxShown + |Ellipsis| && shown[MaxShown..] == Ellipsis
  {
    match name
    case None => ""
    case Some(n) => if |n| > MaxShown then n[..MaxShown] + Ellipsis else n
  }

  /** A shown name is at most 23 characters long and starts with the first
      min(20, length) characters of the name. */
  lemma DisplayNameBounds(n: string)
    ensures |DisplayName(Some(n))| <= MaxShown + |Ellipsis|
    ensures var k := if |n| < MaxShown then |n| else MaxShown;
            |DisplayName(Some(n))| >= k && DisplayName(Some(n))[..k] == n[..k]
  {
  }

  /** A name is shown as it is exactly when it is short, or already 23 characters
      ending in "..." after a 20-character start. */
  lemma DisplayNameUnchangedIff(n: string)
    ensures DisplayName(Some(n)) == n <==>
              |n| <= MaxShown || (|n| == MaxShown + |Ellipsis| && n[MaxShown..] == Ellipsis)
  {
    if |n| > MaxShown && DisplayName(Some(n)) == n {
      assert |n| == MaxShown + |Ellipsis|;
      assert n[MaxShown..] == DisplayName(Some(n))[MaxShown..];
    }
    if |n| == MaxShown + |Ellipsis| && n[MaxShown..] == Ellipsis {
      assert n == n[..MaxShown] + n[MaxShown..];
    }
  }

  /** Truncating a shown name again changes nothing. */
  lemma DisplayNameIdempotent(n: string)
    ensures DisplayName(Some(DisplayName(Some(n)))) == DisplayName(Some(n))
  {
    var shown := DisplayName(Some(n));
    if |n| > MaxShown {
      DisplayNameUnchangedIff(shown);
    }
  }

  /** A card's "Explore" link. */
  function ExploreLink(id: string): string {
    "/events-by-venue/" + id
  }

  /** No route has "events-by-venue", so every "Explore" link lands on "/". */
  lemma ExploreLinkLandsOnRoot(id: string)
    requires IsSegment(id)
    ensures Resolve(ExploreLink(id)) == Redirect("/")
  {
    HomePage.VenuePathLandsOnRoot(id);
  }

  // ---- the scroll arrows ----

  datatype Direction = Left | Right
  datatype Arrow = LeftArrow | RightArrow

  /** `handleScroll(direction)` on the strip: the horizontal offset it scrolls by,
      None when the strip is not mounted. */
  function ScrollDelta(mounted: bool, d: Direction): (delta: Option<int>)
    ensures delta.Some? <==> mounted
    ensures delta.Some? ==> (delta.value < 0 <==> d == Left) && (delta.value == 200 || delta.value == -200)
  {
    if !mounted then None else if d == Left then Some(-200) else Some(200)
  }

  /** The direction each arrow icon asks for, as written: the left arrow asks for
      "right" and the right arrow for "left". */
  function ArrowDirectionAsWritten(a: Arrow): Direction {
    match a
    case LeftArrow => Right
    case RightArrow => Left
  }

  /** As written, the left arrow scrolls the strip right and the right arrow left. */
  lemma ArrowsScrollBackwards()
    ensures ScrollDelta(true, ArrowDirectionAsWritten(LeftArrow)) == Some(200)
    ensures ScrollDelta(true, ArrowDirectionAsWritten(RightArrow)) == Some(-200)
  {
  }

  /** Each arrow asks for the direction it points in. */
  function ArrowDirection(a: Arrow): Direction {
    match a
    case LeftArrow => Left
    case RightArrow => Right
  }

  /** With the arrows wired to their own directions, the left arrow scrolls left and
      the right arrow right, each arrow undoes the other, and each is the reverse of
      the written wiring. */
  lemma ArrowsScrollTheirWay(a: Arrow)
    ensures ScrollDelta(true, ArrowDirection(LeftArrow)).value < 0
    ensures ScrollDelta(true, ArrowDirection(RightArrow)).value > 0
    ensures ScrollDelta(true, ArrowDirection(LeftArrow)).value + ScrollDelta(true, ArrowDirection(RightArrow)).value == 0
    ensures ArrowDirection(a) != ArrowDirectionAsWritten(a)
  {
  }

  /** The body of `get-venue`. */
  datatype VenuesBody = VenuesBody(success: bool, venues: Option<seq<Venue>>)

  const FetchError: string := "Failed to fetch venues"

  /** What the strip renders. */
  datatype View = Loading | ErrorText(message: string) | NoVenues | Cards(names: seq<string>)

  class VenuesSection {
    var venues: seq<Venue>
    var loading: bool
    var error: Option<string>

    constructor ()
      ensures venues == [] && loading && error.None?
    {
      venues := [];
      loading := true;
      error := None;
    }

    /** The mount effect with `resp` the answer of `get-venue`: a success body replaces
        the list (`venues || []`), any answer clears the error, a thrown request sets
        it; loading ends on both paths. */
    method FetchVenues(resp: Response<VenuesBody>)
      modifies this
      ensures !loading
      ensures resp.Ok? && resp.body.success ==> venues == resp.body.venues.GetOr([])
      ensures !(resp.Ok? && resp.body.success) ==> venues == old(venues)
      ensures resp.Ok? ==> error.None?
      ensures resp.Fail? ==> error == Some(FetchError)
    {
      loading := true;
      match resp {
        case Ok(body) =>
          if body.success {
            venues := body.venues.GetOr([]);
          }
          error := None;
        case Fail(_) =>
          error := Some(FetchError);
      }
      loading := false;
    }

    /** The render: the loading text first, then the error, then the cards (their
        shown names, in order) or "No venues available.". */
    function View(): (v: View)
      reads this
      ensures loading <==> v == Loading
      ensures !loading && error.Some? ==> v == ErrorText(error.value)
      ensures !loading && error.None? ==> (v == NoVenues <==> venues == [])
      ensures v.Cards? ==> |v.names| == |venues|
                           && forall k :: 0 <= k < |venues| ==> v.names[k] == DisplayName(venues[k].name)
    {
      if loading then Loading
      else if error.Some? then ErrorText(error.value)
      else if venues == [] then NoVenues
      else Cards(seq(|venues|, k requires 0 <= k < |venues| reads this => DisplayName(venues[k].name)))
    }
  }
}
