/** The organizer's event table (src/pages/organizerPage/EventList.tsx): the status an
    event is shown with, its badge colour, the price label, and the filter state. */
module EventList {
  import opened Base
  import opened Text

  /** What the status logic reads of an event. Dates are instants on one integer clock;
      None is a date `new Date` cannot parse (neither past nor future), and a missing
      end date is None as well, since neither counts as past. */
  datatype EventDates = EventDates(isPublished: bool, start: Option<int>, end: Option<int>)

  predicate IsPast(t: Option<int>, now: int) { t.Some? && t.value < now }
  predicate IsFuture(t: Option<int>, now: int) { t.Some? && t.value > now }

  /** `getEventStatus(event)` at time `now`. */
  function EventStatus(e: EventDates, now: int): string {
    if !e.isPublished then "draft"
    else if IsPast(e.start, now) then (if IsPast(e.end, now) then "completed" else "ongoing")
    else if IsFuture(e.start, now) then "upcoming"
    else "published"
  }

  const Statuses: seq<string> := ["draft", "published", "upcoming", "ongoing", "completed", "cancelled"]

  /** The status rules: a draft regardless of dates unless published; then by the
      start date, where a start exactly now (or unreadable) is "published"; and the
      result is one of five names, never "cancelled". */
  lemma EventStatusCases(e: EventDates, now: int)
    ensures !e.isPublished ==> EventStatus(e, now) == "draft"
    ensures e.isPublished && e.start.Some? && e.start.value < now ==>
              EventStatus(e, now) == (if e.end.Some? && e.end.value < now then "completed" else "ongoing")
    ensures e.isPublished && e.start.Some? && e.start.value > now ==> EventStatus(e, now) == "upcoming"
    ensures e.isPublished && (e.start.None? || e.start.value == now) ==> EventStatus(e, now) == "published"
    ensures EventStatus(e, now) in Statuses[..5]
    ensures EventStatus(e, now) != "cancelled"
  {
    assert Statuses[..5] == ["draft", "published", "upcoming", "ongoing", "completed"];
  }

  /** The colour table of `getStatusColor`. */
  const StatusColors: map<string, string> := map[
    "draft" := "bg-gray-100 text-gray-800",
    "published" := "bg-blue-100 text-blue-800",
    "upcoming" := "bg-green-100 text-green-800",
    "ongoing" := "bg-yellow-100 text-yellow-800",
    "completed" := "bg-purple-100 text-purple-800",
    "cancelled" := "bg-red-100 text-red-800"]

  /** `colors[status] || colors.draft`. */
  function StatusColor(status: string): string {
    if status in StatusColors then StatusColors[status] else StatusColors["draft"]
  }

  /** Every status gets a colour: a known one its own, any other the draft colour; the
      red cancelled colour is never shown for a computed status. */
  lemma StatusColorTotal(status: string, e: EventDates, now: int)
    ensures status !in Statuses ==> StatusColor(status) == "bg-gray-100 text-gray-800"
    ensures status in Statuses ==> StatusColor(status) == StatusColors[status]
    ensures StatusColor(EventStatus(e, now)) != "bg-red-100 text-red-800"
  {
    assert StatusColors.Keys == set s | s in Statuses;
    EventStatusCases(e, now);
  }

  /** The price shown in the table row and on the card: the price when positive,
      "Free" when zero, and `missing` (a dash in the table, "No price" on the card)
      when there is no price or it is negative. */
  function PriceLabel(normalPrice: Option<int>, missing: string): string {
    if normalPrice.Some? && normalPrice.value > 0 then "$" + IntToString(normalPrice.value)
    else if normalPrice.Some? && normalPrice.value == 0 then "Free"
    else missing
  }

  const TableMissing := "—"
  const CardMissing := "No price"

  /** Exactly one of the three labels shows, and a positive price can be read back
      from its label. */
  lemma PriceLabelCases(normalPrice: Option<int>, missing: string)
    requires missing == TableMissing || missing == CardMissing
    ensures PriceLabel(normalPrice, missing) == "Free" <==> normalPrice == Some(0)
    ensures PriceLabel(normalPrice, missing) == missing <==> normalPrice.None? || normalPrice.value < 0
    ensures normalPrice.Some? && normalPrice.value > 0 ==>
              PriceLabel(normalPrice, missing)[0] == '$'
              && ParseInt(PriceLabel(normalPrice, missing)[1..]) == normalPrice
  {
    if normalPrice.Some? && normalPrice.value > 0 {
      var l := PriceLabel(normalPrice, missing);
      assert l[1..] == NatToString(normalPrice.value);
      ParseIntOfNatToString(normalPrice.value);
      assert l[0] == '$';
      assert missing[0] != '$';
    }
  }

  datatype Filters = Filters(status: string, category: string, dateRange: string)
  datatype FilterKey = StatusKey | CategoryKey | DateRangeKey

  const DefaultFilters: Filters := Filters("all", "", "all")

  /** `{ ...prev, [key]: value }`. */
  function SetFilter(f: Filters, key: FilterKey, value: string): Filters {
    match key
    case StatusKey => f.(status := value)
    case CategoryKey => f.(category := value)
    case DateRangeKey => f.(dateRange := value)
  }

  /** A filter change sets its one key and no other. */
  lemma SetFilterChangesOneKey(f: Filters, key: FilterKey, value: string)
    ensures key == StatusKey ==> SetFilter(f, key, value).status == value
    ensures key == CategoryKey ==> SetFilter(f, key, value).category == value
    ensures key == DateRangeKey ==> SetFilter(f, key, value).dateRange == value
    ensures key != StatusKey ==> SetFilter(f, key, value).status == f.status
    ensures key != CategoryKey ==> SetFilter(f, key, value).category == f.category
    ensures key != DateRangeKey ==> SetFilter(f, key, value).dateRange == f.dateRange
    ensures SetFilter(SetFilter(f, key, value), key, value) == SetFilter(f, key, value)
  {
  }

  /** What `getAllEvents` reads; `data` is None when the body has none. */
  datatype EventsBody<E> = EventsBody(success: bool, data: Option<seq<E>>)

  datatype DeleteBody = DeleteBody(success: bool)

  class EventListPage<E> {
    var events: seq<E>
    var loading: bool
    var searchTerm: string
    var filters: Filters

    constructor ()
      ensures events == [] && loading && searchTerm == "" && filters == DefaultFilters
    {
      events := [];
      loading := true;
      searchTerm := "";
      filters := DefaultFilters;
    }

    /** `fetchEvents`, with `resp` the answer of `getAllEvents`: returns the query it
        sends (the filters and the search term); the list is replaced only by a body
        with `success`, and a failure is only logged. */
    method FetchEvents(resp: Response<EventsBody<E>>) returns (query: (Filters, string))
      modifies this
      ensures query == (old(filters), old(searchTerm))
      ensures resp.Ok? && resp.body.success ==> events == resp.body.data.GetOr([])
      ensures !(resp.Ok? && resp.body.success) ==> events == old(events)
      ensures !loading
      ensures filters == old(filters) && searchTerm == old(searchTerm)
    {
      loading := true;
      query := (filters, searchTerm);
      if resp.Ok? && resp.body.success {
        events := resp.body.data.GetOr([]);
      }
      loading := false;
    }

    /** `handleDelete(id)`: with `confirmed` the answer to `window.confirm`, `resp`
        the answer of `deleteEvent` and `refetch` that of the fetch a success starts.
        Returns the id sent (None when the user declined) and the alert shown. */
    method HandleDelete(id: string, confirmed: bool, resp: Response<DeleteBody>,
                        refetch: Response<EventsBody<E>>)
      returns (sent: Option<string>, alert: Option<string>)
      modifies this
      ensures sent.Some? <==> confirmed
      ensures sent.Some? ==> sent.value == id
      ensures alert.Some? <==> confirmed && resp.Fail?
      ensures alert.Some? ==> alert.value == "Failed to delete event"
      ensures confirmed && resp.Ok? && resp.body.success ==>
                !loading
                && (refetch.Ok? && refetch.body.success ==> events == refetch.body.data.GetOr([]))
                && (!(refetch.Ok? && refetch.body.success) ==> events == old(events))
      ensures !(confirmed && resp.Ok? && resp.body.success) ==> events == old(events) && loading == old(loading)
      ensures filters == old(filters) && searchTerm == old(searchTerm)
    {
      sent := None;
      alert := None;
      if !confirmed {
        return;
      }
      sent := Some(id);
      match resp {
        case Ok(body) =>
          if body.success {
            var _ := FetchEvents(refetch);
          }
        case Fail(_) =>
          alert := Some("Failed to delete event");
      }
    }

    method SetSearchTerm(term: string)
      modifies this
      ensures searchTerm == term
      ensures events == old(events) && loading == old(loading) && filters == old(filters)
    {
      searchTerm := term;
    }

    /** `handleFilterChange(key, value)`. */
    method HandleFilterChange(key: FilterKey, value: string)
      modifies this
      ensures filters == SetFilter(old(filters), key, value)
      ensures events == old(events) && loading == old(loading) && searchTerm == old(searchTerm)
    {
      filters := SetFilter(filters, key, value);
    }

    /** `clearFilters`: every filter back to its default and the search emptied. */
    method ClearFilters()
      modifies this
      ensures filters == DefaultFilters && searchTerm == ""
      ensures events == old(events) && loading == old(loading)
    {
      filters := Filters("all", "", "all");
      searchTerm := "";
    }
  }
}
