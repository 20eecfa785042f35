/** The venue edit page (src/pages/organizerPage/UpdateVenue.tsx): how a loaded venue
    fills the form, the all-fields check and the request a save sends. */
module UpdateVenue {
  import opened Base
  import opened Text
  import opened AppRoutes
  import Organizer

  /** A venue as the server sends it; a missing field is None. */
  datatype Venue = Venue(name: Option<string>, address: Option<string>, city: Option<string>,
                         country: Option<string>, capacity: Option<int>)

  datatype VenueForm = VenueForm(name: string, address: string, city: string,
                                 country: string, capacity: string)

  const EmptyForm: VenueForm := VenueForm("", "", "", "", "")

  /** `venue.capacity ? venue.capacity.toString() : ''`: a missing or zero capacity
      leaves the field empty. */
  function CapacityText(c: Option<int>): string {
    if c.Some? && c.value != 0 then IntToString(c.value) else ""
  }

  /** The form filled from a loaded venue, with `''` for every missing field. */
  function FormOf(v: Venue): VenueForm {
    VenueForm(OrEmpty(v.name), OrEmpty(v.address), OrEmpty(v.city), OrEmpty(v.country), CapacityText(v.capacity))
  }

  /** Loading keeps the venue's text fields as they are, and its capacity reads back
      as the same number; a missing or zero capacity gives an empty field, which the
      save check then refuses. */
  lemma FormOfKeepsVenue(v: Venue)
    ensures v.name.Some? ==> FormOf(v).name == v.name.value
    ensures v.city.Some? ==> FormOf(v).city == v.city.value
    ensures v.capacity.Some? && v.capacity.value != 0 ==>
              ParseInt(FormOf(v).capacity) == v.capacity
    ensures FormOf(v).capacity == "" <==> v.capacity.None? || v.capacity.value == 0
  {
    if v.capacity.Some? && v.capacity.value != 0 {
      ParseIntOfIntToString(v.capacity.value);
      if v.capacity.value < 0 {
        assert IntToString(v.capacity.value) != "";
      }
    }
  }

  /** The body of `get-single-venue`. */
  datatype VenueBody = VenueBody(success: bool, venue: Option<Venue>)

  /** The body of `update-venue`. */
  datatype SaveBody = SaveBody(success: bool, message: string)

  /** `{ ...formData, [name]: value }` for any input name. AdminVenues renders inputs
      for all five fields, UpdateVenue only for `name`; another name changes nothing
      the form reads. */
  function SetField(f: VenueForm, name: string, value: string): VenueForm {
    if name == "name" then f.(name := value)
    else if name == "address" then f.(address := value)
    else if name == "city" then f.(city := value)
    else if name == "country" then f.(country := value)
    else if name == "capacity" then f.(capacity := value)
    else f
  }

  /** A change sets the named field to the value and keeps the entries of all other
      fields. */
  lemma SetFieldChangesOneEntry(f: VenueForm, name: string, value: string)
    ensures forall i :: 0 <= i < 5 && Entries(f)[i].0 != name ==>
              Entries(SetField(f, name, value))[i] == Entries(f)[i]
    ensures forall i :: 0 <= i < 5 && Entries(f)[i].0 == name ==>
              Entries(SetField(f, name, value))[i] == (name, value)
  {
  }

  /** The form may be saved only with all five fields filled in. */
  predicate Complete(f: VenueForm) {
    f.name != "" && f.address != "" && f.city != "" && f.country != "" && f.capacity != ""
  }

  /** What a save sends: the five fields, under their own names, in this order. */
  function Entries(f: VenueForm): (e: seq<(string, string)>)
    ensures |e| == 5
  {
    [("name", f.name), ("address", f.address), ("city", f.city), ("country", f.country), ("capacity", f.capacity)]
  }

  /** The entries are the form itself: unchanged values under distinct names, so the
      form can be read back from them. */
  lemma EntriesRoundTrip(f: VenueForm)
    ensures var e := Entries(f);
      VenueForm(e[0].1, e[1].1, e[2].1, e[3].1, e[4].1) == f
      && forall i, j :: 0 <= i < j < |e| ==> e[i].0 != e[j].0
  {
    var e := Entries(f);
    assert e[0].0[0] == 'n' && e[1].0[0] == 'a' && e[2].0[0] == 'c' && e[3].0[0] == 'c' && e[4].0[0] == 'c';
    assert e[2].0[1] == 'i' && e[3].0[1] == 'o' && e[4].0[1] == 'a';
  }

  class UpdateVenuePage {
    var loading: bool
    var updating: bool
    var formData: VenueForm

    constructor ()
      ensures loading && !updating && formData == EmptyForm
    {
      loading := true;
      updating := false;
      formData := EmptyForm;
    }

    /** The fetch effect for route parameter `id` ("" when absent: nothing is
        fetched), with `resp` the answer of `get-single-venue`. Returns the toast shown
        and where the page went. */
    method FetchVenue(id: string, resp: Response<VenueBody>) returns (toast: Option<Toast>, navigateTo: Option<string>)
      modifies this
      ensures id == "" ==> toast.None? && navigateTo.None? && loading == old(loading) && formData == old(formData)
      ensures id != "" ==> !loading
      ensures id != "" && resp.Ok? && resp.body.success && resp.body.venue.Some? ==>
                formData == FormOf(resp.body.venue.value) && toast.None? && navigateTo.None?
      ensures id != "" && resp.Ok? && !resp.body.success ==>
                formData == old(formData) && toast.None? && navigateTo.None?
      ensures id != "" && (resp.Fail? || (resp.body.success && resp.body.venue.None?)) ==>
                formData == old(formData) && toast == Some(ErrorToast("Failed to load venue data"))
                && navigateTo == Some("/organizer/venue-list")
      ensures updating == old(updating)
    {
      toast := None;
      navigateTo := None;
      if id == "" {
        return;
      }
      loading := true;
      match resp {
        case Ok(body) =>
          if body.success {
            if body.venue.Some? {
              formData := FormOf(body.venue.value);
            } else {
              // reading a field of the missing venue throws
              toast := Some(ErrorToast("Failed to load venue data"));
              navigateTo := Some("/organizer/venue-list");
            }
          }
        case Fail(_) =>
          toast := Some(ErrorToast("Failed to load venue data"));
          navigateTo := Some("/organizer/venue-list");
      }
      loading := false;
    }

    method HandleChange(name: string, value: string)
      modifies this
      ensures formData == SetField(old(formData), name, value)
      ensures loading == old(loading) && updating == old(updating)
    {
      formData := SetField(formData, name, value);
    }

    /** `handleSubmit`, with `resp` the answer of `update-venue`. Returns the entries
        sent (None when the check stopped the request), the toast and where the page
        went. */
    method HandleSubmit(resp: Response<SaveBody>)
      returns (sent: Option<seq<(string, string)>>, toast: Option<Toast>, navigateTo: Option<string>)
      modifies this
      ensures sent.Some? <==> Complete(old(formData))
      ensures sent.None? ==> toast == Some(ErrorToast("All fields are required")) && navigateTo.None?
                             && updating == old(updating)
      ensures sent.Some? ==> sent.value == Entries(old(formData)) && !updating
      ensures sent.Some? && resp.Ok? ==>
                (resp.body.success ==> navigateTo == Some("/organizer/venue-list")
                                       && toast == Some(SuccessToast(resp.body.message)))
                && (!resp.body.success ==> navigateTo.None? && toast.None?)
      ensures sent.Some? && resp.Fail? ==>
                navigateTo.None? && toast == Some(ErrorToast(ServerMessageOr(resp.failure, "Server not responding")))
      ensures formData == old(formData) && loading == old(loading)
    {
      sent := None;
      toast := None;
      navigateTo := None;
      if formData.name == "" || formData.address == "" || formData.city == ""
         || formData.country == "" || formData.capacity == "" {
        toast := Some(ErrorToast("All fields are required"));
        return;
      }
      updating := true;
      var entries: seq<(string, string)> := [];
      entries := entries + [("name", formData.name)];
      entries := entries + [("address", formData.address)];
      entries := entries + [("city", formData.city)];
      entries := entries + [("country", formData.country)];
      entries := entries + [("capacity", formData.capacity)];
      sent := Some(entries);
      match resp {
        case Ok(body) =>
          if body.success {
            toast := Some(SuccessToast(body.message));
            navigateTo := Some("/organizer/venue-list");
          }
        case Fail(f) =>
          toast := Some(ErrorToast(ServerMessageOr(f, "Server not responding")));
      }
      updating := false;
    }
  }

  /** Both the save and a failed load lead to "/organizer/venue-list", which the table
      does not have: the router lands on "/". */
  lemma VenueListLandsOnRoot()
    ensures Resolve(PathOf(["organizer", "venue-list"])) == Redirect("/")
  {
    Organizer.DeadSidebarLinks("venue-list");
  }
}
