/** The organizer's venue table (src/pages/organizerPage/VenueList.tsx): the capacity
    badge and label, the location text, the footer count and the delete handler. */
module VenueList {
  import opened Base
  import opened Text
  import opened Seqs

  /** A venue row; a missing text field is None, a missing capacity None. */
  datatype Venue = Venue(id: string, name: string, address: Option<string>, city: Option<string>,
                         country: Option<string>, capacity: Option<int>)

  /** `!capacity`: missing or zero. */
  predicate NoCapacity(c: Option<int>) { c.None? || c.value == 0 }

  /** What `formatCapacity` shows: "N/A", a thousands figure (`toFixed(1)` of
      capacity / 1000, not modelled), or the decimal digits. */
  datatype CapacityLabel = NotAvailable | Thousands(capacity: int) | Plain(text: string)

  function FormatCapacity(c: Option<int>): CapacityLabel {
    if NoCapacity(c) then NotAvailable
    else if c.value >= 1000 then Thousands(c.value)
    else Plain(IntToString(c.value))
  }

  /** Missing and zero capacities read "N/A", 1000 and over is a thousands figure, and
      a capacity from 1 to 999 is its decimal text, which reads back as the number. */
  lemma FormatCapacityCases(c: Option<int>)
    ensures FormatCapacity(c) == NotAvailable <==> NoCapacity(c)
    ensures FormatCapacity(c).Thousands? <==> c.Some? && c.value >= 1000
    ensures c.Some? && 1 <= c.value <= 999 ==>
              FormatCapacity(c).Plain? && ParseInt(FormatCapacity(c).text) == c
              && 1 <= |FormatCapacity(c).text| <= 3
  {
    if c.Some? && 1 <= c.value <= 999 {
      ParseIntOfNatToString(c.value);
      NatToStringShort(c.value);
    }
  }

  lemma NatToStringShort(n: nat)
    requires n <= 999
    ensures 1 <= |NatToString(n)| <= 3
  {
    if n >= 10 {
      NatToStringShort(n / 10);
      if n >= 100 {
        assert n / 10 >= 10;
      } else {
        assert n / 10 < 10;
      }
    }
  }

  const Gray := "bg-gray-100 text-gray-800"
  const Red := "bg-red-100 text-red-800"
  const Orange := "bg-orange-100 text-orange-800"
  const Yellow := "bg-yellow-100 text-yellow-800"
  const Green := "bg-green-100 text-green-800"
  const Blue := "bg-blue-100 text-blue-800"

  /** `getCapacityBadge`. */
  function CapacityBadge(c: Option<int>): string {
    if NoCapacity(c) then Gray
    else if c.value >= 5000 then Red
    else if c.value >= 2000 then Orange
    else if c.value >= 1000 then Yellow
    else if c.value >= 500 then Green
    else Blue
  }

  /** The bands, each stated as an if-and-only-if, so they are disjoint and every
      positive capacity falls in exactly one; a negative capacity is truthy and so
      lands in the smallest band. */
  lemma CapacityBands(c: Option<int>)
    ensures CapacityBadge(c) == Gray <==> NoCapacity(c)
    ensures CapacityBadge(c) == Red <==> c.Some? && c.value >= 5000
    ensures CapacityBadge(c) == Orange <==> c.Some? && 2000 <= c.value < 5000
    ensures CapacityBadge(c) == Yellow <==> c.Some? && 1000 <= c.value < 2000
    ensures CapacityBadge(c) == Green <==> c.Some? && 500 <= c.value < 1000
    ensures CapacityBadge(c) == Blue <==> c.Some? && c.value < 500 && c.value != 0
  {
  }

  /** JavaScript truthiness of an optional string. */
  predicate Truthy(s: Option<string>) { s.Some? && s.value != "" }

  /** The dash the file holds: the bytes of "—" decoded as Windows-1252. */
  const GarbledDash: string := "\U{00E2}\U{20AC}\U{201D}"
  const Dash: string := "\U{2014}"

  /** The location cell as written. */
  function LocationAsWritten(v: Venue): string {
    if Truthy(v.city) && Truthy(v.country) then v.city.value + ", " + v.country.value
    else if Truthy(v.city) then v.city.value
    else if Truthy(v.country) then v.country.value
    else GarbledDash
  }

  /** A venue with neither city nor country shows three stray characters instead of a
      dash. */
  lemma LocationShowsGarbledDash(v: Venue)
    requires !Truthy(v.city) && !Truthy(v.country)
    ensures LocationAsWritten(v) != Dash && |LocationAsWritten(v)| == 3
  {
  }

  /** The location cell with the dash meant. */
  function Location(v: Venue): string {
    if Truthy(v.city) && Truthy(v.country) then v.city.value + ", " + v.country.value
    else if Truthy(v.city) then v.city.value
    else if Truthy(v.country) then v.country.value
    else Dash
  }

  /** "city, country" when both are there, else the one that is, else the dash; the
      cell is never empty and differs from the written one only in the dash case. */
  lemma LocationCases(v: Venue)
    ensures Truthy(v.city) && Truthy(v.country) ==> Location(v) == v.city.value + ", " + v.country.value
    ensures Truthy(v.city) && !Truthy(v.country) ==> Location(v) == v.city.value
    ensures !Truthy(v.city) && Truthy(v.country) ==> Location(v) == v.country.value
    ensures !Truthy(v.city) && !Truthy(v.country) ==> Location(v) == Dash
    ensures Location(v) != ""
    ensures Location(v) != LocationAsWritten(v) <==> !Truthy(v.city) && !Truthy(v.country)
  {
  }

  /** The footer: "Showing n venue", with an "s" unless n is 1. */
  function Footer(n: nat): string {
    "Showing " + NatToString(n) + " venue" + (if n != 1 then "s" else "")
  }

  lemma FooterPlural(n: nat)
    ensures n == 1 ==> Footer(n) == "Showing 1 venue"
    ensures n != 1 ==> Footer(n)[|Footer(n)| - 6..] == "venues"
  {
    if n == 1 {
      assert NatToString(1) == "1";
    }
  }

  function VenueId(v: Venue): string { v.id }

  /** What `getVenues` and `deleteVenue` answer; `venues` is None when absent. */
  datatype VenuesBody = VenuesBody(success: bool, venues: Option<seq<Venue>>)
  datatype DeleteBody = DeleteBody(success: bool)

  class VenueListPage {
    var venues: seq<Venue>
    var loading: bool
    var deleteLoading: Option<string>

    constructor ()
      ensures venues == [] && loading && deleteLoading.None?
    {
      venues := [];
      loading := true;
      deleteLoading := None;
    }

    /** The mount effect: a body with `success` replaces the list with `venues || []`;
        anything else is only logged. */
    method FetchVenues(resp: Response<VenuesBody>)
      modifies this
      ensures resp.Ok? && resp.body.success ==> venues == resp.body.venues.GetOr([])
      ensures !(resp.Ok? && resp.body.success) ==> venues == old(venues)
      ensures !loading && deleteLoading == old(deleteLoading)
    {
      loading := true;
      if resp.Ok? && resp.body.success {
        venues := resp.body.venues.GetOr([]);
      }
      loading := false;
    }

    /** `handleDelete(id)`, with `confirmed` the answer to `window.confirm` and `resp`
        the answer of `deleteVenue`. Returns the id sent (None when the user declined)
        and the alert shown. */
    method HandleDelete(id: string, confirmed: bool, resp: Response<DeleteBody>)
      returns (sent: Option<string>, alert: Option<string>)
      modifies this
      ensures sent == (if confirmed then Some(id) else None)
      ensures confirmed && resp.Ok? && resp.body.success ==> venues == WithoutKey(old(venues), VenueId, id)
      ensures !(confirmed && resp.Ok? && resp.body.success) ==> venues == old(venues)
      ensures alert.Some? <==> confirmed && resp.Fail?
      ensures alert.Some? ==> alert.value == "Failed to delete venue"
      ensures confirmed ==> deleteLoading.None?
      ensures !confirmed ==> deleteLoading == old(deleteLoading)
      ensures loading == old(loading)
    {
      sent := None;
      alert := None;
      if !confirmed {
        return;
      }
      sent := Some(id);
      deleteLoading := Some(id);
      match resp {
        case Ok(body) =>
          if body.success {
            venues := WithoutKey(venues, VenueId, id);
          }
        case Fail(_) =>
          alert := Some("Failed to delete venue");
      }
      deleteLoading := None;
    }
  }
}
