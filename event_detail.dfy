/** The event detail page (src/pages/userPage/UserEventDetailPage.tsx): which event
    the page shows (the fetched one, a demo one, or an error) and the price block. */
module EventDetail {
  import opened Base
  import opened Text

  /** The fields of an event the page's logic reads; absent ones are None. */
  datatype DetailEvent = DetailEvent(id: string, title: string, image: Option<string>,
                                     venueName: Option<string>, description: Option<string>,
                                     normalPrice: Option<int>, vipPrice: Option<int>)

  /** The body of `get-eventById`; `event` is None when absent. */
  datatype DetailBody = DetailBody(success: bool, event: Option<DetailEvent>)

  const Mock1: DetailEvent := DetailEvent("1", "Aster Aweke Grand Last Concert",
    Some("https://images.unsplash.com/photo-1493676304819-0d7c9c9a1d5d?ixlib=rb-4.0.3&auto=format&fit=crop&w=1200&q=80"),
    Some("Millennium Hall"),
    Some("Join us for an unforgettable night with the legendary Ethiopian singer Aster Aweke as she performs her greatest hits in a grand farewell concert. A once-in-a-lifetime musical experience filled with emotion, culture, and timeless melodies."),
    Some(1250), Some(2500))
  const Mock2: DetailEvent := DetailEvent("2", "Teddy Afro Live in Addis",
    Some("https://images.unsplash.com/photo-1470229722913-1d039db7465b?ixlib=rb-4.0.3&auto=format&fit=crop&w=1200&q=80"),
    Some("Addis Ababa Stadium"),
    Some("The king of Ethiopian music returns! Teddy Afro brings his powerful voice and inspiring lyrics to the stage for a night of unity, love, and celebration."),
    Some(1500), Some(3000))
  const Mock3: DetailEvent := DetailEvent("3", "Kassmasse New Year Concert",
    Some("https://images.unsplash.com/photo-1516450360452-9312f5e86fc7?ixlib=rb-4.0.3&auto=format&fit=crop&w=1200&q=80"),
    Some("Ghion Hotel"),
    Some("Celebrate the New Year with the soulful voice of Kassmasse. A night of heartfelt music, joy, and celebration to welcome 2026!"),
    Some(2000), None)

  /** The three demo events, keyed by id. */
  function MockEvent(id: string): (e: Option<DetailEvent>)
    ensures e.Some? <==> id == "1" || id == "2" || id == "3"
    ensures e.Some? ==> e.value.id == id
  {
    if id == "1" then Some(Mock1)
    else if id == "2" then Some(Mock2)
    else if id == "3" then Some(Mock3)
    else None
  }

  const NotFoundMessage: string := "Event not found. Try a valid event ID (1, 2, or 3 for demo)."

  /** The fetched event, when the answer has `success` and an `event`. */
  function RealEvent(resp: Response<DetailBody>): Option<DetailEvent> {
    if resp.Ok? && resp.body.success && resp.body.event.Some? then resp.body.event else None
  }

  /** `fetchEventDetails` as written: the new `event` and `error` given the event the
      page held before. When neither the server nor the demo data has the id, only
      the error is set and the previous event is kept. */
  function FetchResult(id: string, resp: Response<DetailBody>, previous: Option<DetailEvent>)
    : (r: (Option<DetailEvent>, string))
  {
    if RealEvent(resp).Some? then (RealEvent(resp), "")
    else if MockEvent(id).Some? then (MockEvent(id), "")
    else (previous, NotFoundMessage)
  }

  /** The real event wins exactly when the answer carries one; otherwise ids "1" to
      "3" give their demo event with no error, and any other id the not-found
      message. */
  lemma FetchResultCases(id: string, resp: Response<DetailBody>, previous: Option<DetailEvent>)
    ensures RealEvent(resp).Some? ==> FetchResult(id, resp, previous) == (resp.body.event, "")
    ensures RealEvent(resp).None? && (id == "1" || id == "2" || id == "3") ==>
              FetchResult(id, resp, previous) == (MockEvent(id), "") && MockEvent(id).value.id == id
    ensures RealEvent(resp).None? && !(id == "1" || id == "2" || id == "3") ==>
              FetchResult(id, resp, previous).1 == NotFoundMessage
    ensures FetchResult(id, resp, previous).1 == "" <==> RealEvent(resp).Some? || MockEvent(id).Some?
  {
  }

  /** What the page renders. */
  datatype View = Spinner | NotFound(message: string) | Nothing | Details(event: DetailEvent)

  function ViewOf(loading: bool, error: string, event: Option<DetailEvent>): (v: View)
    ensures v == Spinner <==> loading
    ensures v.NotFound? <==> !loading && error != "" && event.None?
    ensures v.Details? ==> !loading && event == Some(v.event)
  {
    if loading then Spinner
    else if error != "" && event.None? then NotFound(error)
    else if event.None? then Nothing
    else Details(event.value)
  }

  /** After moving from a shown event to an id nobody knows, the page still shows the
      earlier event, under an id that is not its own. */
  lemma StaleEventShown(e: DetailEvent)
    requires e.id == "1"
    ensures var r := FetchResult("99", Fail(Network), Some(e));
            ViewOf(false, r.1, r.0) == Details(e) && e.id != "99"
  {
  }

  /** The fetch with the previous event dropped when the id is not found. */
  function FetchResultCorrected(id: string, resp: Response<DetailBody>): (r: (Option<DetailEvent>, string))
  {
    if RealEvent(resp).Some? then (RealEvent(resp), "")
    else if MockEvent(id).Some? then (MockEvent(id), "")
    else (None, NotFoundMessage)
  }

  /** With the correction the page shows an event only when the server or the demo
      data gave it for this request, and the not-found screen exactly otherwise; it
      agrees with the written version whenever the id is found. */
  lemma CorrectedFetchShowsOnlyThisRequest(id: string, resp: Response<DetailBody>, previous: Option<DetailEvent>)
    ensures var r := FetchResultCorrected(id, resp);
            (ViewOf(false, r.1, r.0).Details? ==> r.0 == RealEvent(resp) || r.0 == MockEvent(id))
            && (ViewOf(false, r.1, r.0) == NotFound(NotFoundMessage) <==> RealEvent(resp).None? && MockEvent(id).None?)
    ensures RealEvent(resp).Some? || MockEvent(id).Some? ==>
              FetchResultCorrected(id, resp) == FetchResult(id, resp, previous)
  {
  }

  // ---- the price block ----

  /** The "Regular" price: `price ? `${price}ETB` : 'Free'`, so 0 reads "Free". */
  function RegularPrice(p: Option<int>): string {
    if p.Some? && p.value != 0 then IntToString(p.value) + "ETB" else "Free"
  }

  /** "Free" shows exactly for a missing or zero price; any other label ends in "ETB"
      after the price's own text, which reads back as the price. */
  lemma RegularPriceCases(p: Option<int>)
    ensures RegularPrice(p) == "Free" <==> p.None? || p.value == 0
    ensures RegularPrice(p) != "Free" ==>
              var shown := RegularPrice(p);
              |shown| > 3 && shown[|shown| - 3..] == "ETB" && ParseInt(shown[..|shown| - 3]) == p
  {
    if p.Some? && p.value != 0 {
      var t := IntToString(p.value);
      var shown := t + "ETB";
      assert shown[|shown| - 3..] == "ETB";
      assert shown[..|shown| - 3] == t;
      ParseIntOfIntToString(p.value);
      assert t != "" by {
        if p.value < 0 {
          assert t[0] == '-';
        } else {
          assert |NatToString(p.value)| > 0;
        }
      }
      assert shown[|shown| - 1] == 'B';
    }
  }

  /** What `{event.vipPrice?.price && (...)}` puts on the page. */
  datatype VipView = NoVip | StrayText(text: string) | VipBlock(price: int)

  /** As written: `&&` yields its falsy left operand, and React renders the number 0
      as text, while an absent price renders nothing. */
  function VipAsWritten(p: Option<int>): VipView {
    if p.None? then NoVip else if p.value == 0 then StrayText("0") else VipBlock(p.value)
  }

  /** A VIP price of 0 puts a bare "0" under the regular price. */
  lemma VipZeroShowsStrayZero()
    ensures VipAsWritten(Some(0)) == StrayText("0")
  {
  }

  /** The VIP block as intended: shown only for a truthy price, nothing otherwise. */
  function Vip(p: Option<int>): VipView {
    if p.Some? && p.value != 0 then VipBlock(p.value) else NoVip
  }

  /** The VIP block appears exactly when the price is truthy, never as stray text,
      and agrees with the written version except at 0. */
  lemma VipShownOnlyWhenTruthy(p: Option<int>)
    ensures Vip(p).VipBlock? <==> p.Some? && p.value != 0
    ensures Vip(p).VipBlock? ==> Vip(p).price == p.value
    ensures !Vip(p).StrayText?
    ensures p != Some(0) ==> Vip(p) == VipAsWritten(p)
  {
  }

  const DefaultImage: string := "https://images.unsplash.com/photo-1493676304819-0d7c9c9a1d5d?ixlib=rb-4.0.3&auto=format&fit=crop&w=1200&q=80"
  const DefaultDescription: string := "Experience an amazing night of live music and entertainment."

  predicate Truthy(s: Option<string>) { s.Some? && s.value != "" }

  /** The image, venue name and description, each with its fallback when falsy: no
      cell is ever empty, and a given value is shown as it is. */
  function Display(e: DetailEvent): (d: (string, string, string))
    ensures d.0 != "" && d.1 != "" && d.2 != ""
    ensures Truthy(e.image) ==> d.0 == e.image.value
    ensures Truthy(e.venueName) ==> d.1 == e.venueName.value
    ensures Truthy(e.description) ==> d.2 == e.description.value
  {
    (if Truthy(e.image) then e.image.value else DefaultImage,
     if Truthy(e.venueName) then e.venueName.value else "TBD",
     if Truthy(e.description) then e.description.value else DefaultDescription)
  }

  class EventDetailPage {
    var event: Option<DetailEvent>
    var loading: bool
    var error: string

    constructor ()
      ensures event.None? && loading && error == ""
    {
      event := None;
      loading := true;
      error := "";
    }

    /** The effect for route parameter `id`, with `resp` the answer of
        `get-eventById`: nothing happens without an id; otherwise the page ends with
        `FetchResult` and `loading` false. */
    method FetchEventDetails(id: string, resp: Response<DetailBody>)
      modifies this
      ensures id == "" ==> event == old(event) && loading == old(loading) && error == old(error)
      ensures id != "" ==> (event, error) == FetchResult(id, resp, old(event)) && !loading
    {
      if id == "" {
        return;
      }
      loading := true;
      error := "";
      match resp {
        case Ok(body) =>
          if body.success && body.event.Some? {
            event := body.event;
            loading := false;
            return;
          }
        case Fail(_) =>
      }
      var mock := MockEvent(id);
      if mock.Some? {
        event := mock;
        error := "";
      } else {
        error := NotFoundMessage;
      }
      loading := false;
    }

    function View(): View
      reads this
    {
      ViewOf(loading, error, event)
    }

    /** "Get Ticket". */
    method HandleGetTicket() returns (navigateTo: string)
      ensures navigateTo == "/seat-selection"
    {
      navigateTo := "/seat-selection";
    }
  }
}
