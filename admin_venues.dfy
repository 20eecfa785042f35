/** The admin venue manager (src/pages/adminPage/AdminVenues.tsx): the search, the
    edit form, the create-or-update submit and the delete. */
module AdminVenues {
  import opened Base
  import opened Text
  import opened Seqs
  import UpdateVenue
  import EventContext

  /** A venue as this page declares it: the text fields are strings, the capacity and
      the image may be absent. */
  datatype Venue = Venue(id: string, name: string, image: Option<string>, address: string,
                         city: string, country: string, capacity: Option<int>)

  function VenueId(v: Venue): string { v.id }

  /** The callback of `filteredVenues`. */
  predicate VenueMatches(v: Venue, searchTerm: string) {
    ContainsIgnoringCase(v.name, searchTerm) || ContainsIgnoringCase(v.city, searchTerm)
  }

  function FilteredVenues(venues: seq<Venue>, searchTerm: string): seq<Venue> {
    Filter(venues, (v: Venue) => VenueMatches(v, searchTerm))
  }

  /** The search keeps, in order, exactly the venues whose name or city contains the
      term ignoring case, and an empty term keeps every venue. */
  lemma FilteredVenuesSpec(venues: seq<Venue>, searchTerm: string)
    ensures IsSubsequence(FilteredVenues(venues, searchTerm), venues)
    ensures forall v :: v in FilteredVenues(venues, searchTerm) <==> v in venues && VenueMatches(v, searchTerm)
    ensures searchTerm == "" ==> FilteredVenues(venues, searchTerm) == venues
  {
    FilterIsSubsequence(venues, (v: Venue) => VenueMatches(v, searchTerm));
    if searchTerm == "" {
      forall k | 0 <= k < |venues| ensures VenueMatches(venues[k], searchTerm) {
        ContainsIgnoringCaseEmpty(venues[k].name);
      }
      FilterKeepsAll(venues, (v: Venue) => VenueMatches(v, searchTerm));
    }
  }

  /** The form `handleEdit` fills: every text field as it is, and the capacity as
      its decimal text or empty when absent. */
  function EditForm(v: Venue): UpdateVenue.VenueForm {
    UpdateVenue.VenueForm(v.name, v.address, v.city, v.country,
                          if v.capacity.Some? then IntToString(v.capacity.value) else "")
  }

  /** The filled form holds the venue: the texts unchanged and the capacity readable
      back, empty exactly when the venue has none. */
  lemma EditFormKeepsVenue(v: Venue)
    ensures EditForm(v).name == v.name && EditForm(v).address == v.address
    ensures EditForm(v).city == v.city && EditForm(v).country == v.country
    ensures EditForm(v).capacity == "" <==> v.capacity.None?
    ensures v.capacity.Some? ==> ParseInt(EditForm(v).capacity) == v.capacity
  {
    if v.capacity.Some? {
      ParseIntOfIntToString(v.capacity.value);
      assert IntToString(v.capacity.value) != "" by {
        if v.capacity.value < 0 {
          assert IntToString(v.capacity.value)[0] == '-';
        } else {
          assert |NatToString(v.capacity.value)| > 0;
        }
      }
    }
  }

  /** The request `handleSubmit` makes: the form's five entries in key order and the
      selected image, sent to update when a venue is being edited, else to create. */
  datatype Request =
    | Create(entries: seq<(string, string)>, image: Option<string>)
    | Update(id: string, entries: seq<(string, string)>, image: Option<string>)

  datatype SuccessBody = SuccessBody(success: bool)

  class AdminVenuesPage {
    var venues: seq<Venue>
    var loading: bool
    var showModal: bool
    var editingVenue: Option<Venue>
    var searchTerm: string
    var formData: UpdateVenue.VenueForm
    var image: Option<string>
    var imagePreview: Option<string>
    var isSubmitting: bool

    constructor ()
      ensures venues == [] && loading && !showModal && editingVenue.None? && searchTerm == ""
      ensures formData == UpdateVenue.EmptyForm && image.None? && imagePreview.None? && !isSubmitting
    {
      venues := [];
      loading := true;
      showModal := false;
      editingVenue := None;
      searchTerm := "";
      formData := UpdateVenue.EmptyForm;
      image := None;
      imagePreview := None;
      isSubmitting := false;
    }

    /** The state `resetForm` leaves. */
    predicate FormCleared()
      reads this
    {
      formData == UpdateVenue.EmptyForm && image.None? && imagePreview.None?
      && editingVenue.None? && !showModal
    }

    /** `fetchVenues`, with `answer` the server's answer to the request that
        `getVenues` makes. `getVenues` turns every failure into
        `{success: false, venues: []}`, so the page's `catch` and its "Failed to fetch
        venues" toast are never reached: a failed request keeps the list and shows
        nothing. */
    method FetchVenues(answer: Response<EventContext.ListBody<Venue>>) returns (toast: Option<Toast>)
      modifies this
      ensures answer.Ok? && answer.body.success ==> venues == answer.body.items
      ensures !(answer.Ok? && answer.body.success) ==> venues == old(venues)
      ensures toast.None?
      ensures !loading
      ensures formData == old(formData) && editingVenue == old(editingVenue) && showModal == old(showModal)
      ensures image == old(image) && imagePreview == old(imagePreview) && isSubmitting == old(isSubmitting)
      ensures searchTerm == old(searchTerm)
    {
      loading := true;
      toast := None;
      var res := EventContext.ListOrUnsuccessful(answer);
      if res.success {
        venues := res.items;
      }
      loading := false;
    }

    method HandleInputChange(name: string, value: string)
      modifies this
      ensures formData == UpdateVenue.SetField(old(formData), name, value)
      ensures venues == old(venues) && editingVenue == old(editingVenue) && showModal == old(showModal)
      ensures image == old(image) && imagePreview == old(imagePreview)
      ensures loading == old(loading) && searchTerm == old(searchTerm) && isSubmitting == old(isSubmitting)
    {
      formData := UpdateVenue.SetField(formData, name, value);
    }

    /** `handleImageChange`: a chosen file becomes the image, with `preview` the
        object URL the browser makes for it; an empty selection changes nothing. */
    method HandleImageChange(file: Option<string>, preview: string)
      modifies this
      ensures file.Some? ==> image == file && imagePreview == Some(preview)
      ensures file.None? ==> image == old(image) && imagePreview == old(imagePreview)
      ensures venues == old(venues) && formData == old(formData) && editingVenue == old(editingVenue)
      ensures showModal == old(showModal) && loading == old(loading) && searchTerm == old(searchTerm)
      ensures isSubmitting == old(isSubmitting)
    {
      if file.Some? {
        image := file;
        imagePreview := Some(preview);
      }
    }

    method SetSearchTerm(term: string)
      modifies this
      ensures searchTerm == term
      ensures venues == old(venues) && formData == old(formData) && editingVenue == old(editingVenue)
      ensures showModal == old(showModal) && image == old(image) && imagePreview == old(imagePreview)
      ensures loading == old(loading) && isSubmitting == old(isSubmitting)
    {
      searchTerm := term;
    }

    /** `resetForm`. */
    method ResetForm()
      modifies this
      ensures FormCleared()
      ensures venues == old(venues) && searchTerm == old(searchTerm) && loading == old(loading)
      ensures isSubmitting == old(isSubmitting)
    {
      formData := UpdateVenue.VenueForm("", "", "", "", "");
      image := None;
      imagePreview := None;
      editingVenue := None;
      showModal := false;
    }

    /** `handleEdit(venue)`: the venue becomes the edited one, its values fill the
        form, its image the preview, and the modal opens. */
    method HandleEdit(v: Venue)
      modifies this
      ensures editingVenue == Some(v) && formData == EditForm(v) && showModal
      ensures imagePreview == (if v.image.Some? && v.image.value != "" then v.image else None)
      ensures venues == old(venues) && image == old(image) && searchTerm == old(searchTerm)
      ensures loading == old(loading) && isSubmitting == old(isSubmitting)
    {
      editingVenue := Some(v);
      formData := EditForm(v);
      imagePreview := if v.image.Some? && v.image.value != "" then v.image else None;
      showModal := true;
    }

    /** `handleSubmit`, with `resp` the answer of the request made. Returns the
        request (None when the name check stopped it), the toast, and whether the
        list is fetched again. */
    method HandleSubmit(resp: Response<SuccessBody>)
      returns (sent: Option<Request>, toast: Option<Toast>, refetch: bool)
      modifies this
      ensures sent.None? <==> old(formData).name == ""
      ensures sent.None? ==> toast == Some(ErrorToast("Venue name is required")) && !refetch
                             && formData == old(formData) && editingVenue == old(editingVenue)
                             && showModal == old(showModal) && image == old(image)
                             && imagePreview == old(imagePreview) && isSubmitting == old(isSubmitting)
      ensures sent.Some? && old(editingVenue).Some? ==>
                sent.value == Update(old(editingVenue).value.id, UpdateVenue.Entries(old(formData)), old(image))
      ensures sent.Some? && old(editingVenue).None? ==>
                sent.value == Create(UpdateVenue.Entries(old(formData)), old(image))
      ensures sent.Some? && resp.Ok? && resp.body.success ==>
                refetch && FormCleared()
                && toast == Some(SuccessToast(if old(editingVenue).Some? then "Venue updated successfully"
                                              else "Venue created successfully"))
      ensures sent.Some? && !(resp.Ok? && resp.body.success) ==>
                !refetch && formData == old(formData) && editingVenue == old(editingVenue)
                && showModal == old(showModal) && image == old(image) && imagePreview == old(imagePreview)
      ensures sent.Some? && resp.Ok? && !resp.body.success ==> toast.None?
      ensures sent.Some? && resp.Fail? ==>
                toast == Some(ErrorToast(ServerMessageOr(resp.failure, "Something went wrong")))
      ensures sent.Some? ==> !isSubmitting
      ensures venues == old(venues) && searchTerm == old(searchTerm) && loading == old(loading)
    {
      sent := None;
      refetch := false;
      if formData.name == "" {
        toast := Some(ErrorToast("Venue name is required"));
        return;
      }
      toast := None;
      isSubmitting := true;
      var entries := UpdateVenue.Entries(formData);
      if editingVenue.Some? {
        sent := Some(Update(editingVenue.value.id, entries, image));
      } else {
        sent := Some(Create(entries, image));
      }
      match resp {
        case Ok(body) =>
          if body.success {
            toast := Some(SuccessToast(if editingVenue.Some? then "Venue updated successfully"
                                       else "Venue created successfully"));
            refetch := true;
            ResetForm();
          }
        case Fail(f) =>
          toast := Some(ErrorToast(ServerMessageOr(f, "Something went wrong")));
      }
      isSubmitting := false;
    }

    /** `handleDelete(id)`, with `confirmed` the answer to `window.confirm` and `resp`
        the answer of `deleteVenue`. Returns the id sent (None when the user declined)
        and the toast. */
    method HandleDelete(id: string, confirmed: bool, resp: Response<SuccessBody>)
      returns (sent: Option<string>, toast: Option<Toast>)
      modifies this
      ensures sent == (if confirmed then Some(id) else None)
      ensures !confirmed ==> toast.None?
      ensures confirmed && resp.Ok? && resp.body.success ==>
                venues == WithoutKey(old(venues), VenueId, id) && toast == Some(SuccessToast("Venue deleted successfully"))
      ensures !(confirmed && resp.Ok? && resp.body.success) ==> venues == old(venues)
      ensures confirmed && resp.Ok? && !resp.body.success ==> toast.None?
      ensures confirmed && resp.Fail? ==> toast == Some(ErrorToast("Failed to delete venue"))
      ensures formData == old(formData) && editingVenue == old(editingVenue) && showModal == old(showModal)
      ensures loading == old(loading) && searchTerm == old(searchTerm) && image == old(image)
      ensures imagePreview == old(imagePreview) && isSubmitting == old(isSubmitting)
    {
      sent := None;
      toast := None;
      if !confirmed {
        return;
      }
      sent := Some(id);
      match resp {
        case Ok(body) =>
          if body.success {
            toast := Some(SuccessToast("Venue deleted successfully"));
            venues := WithoutKey(venues, VenueId, id);
          }
        case Fail(_) =>
          toast := Some(ErrorToast("Failed to delete venue"));
      }
    }
  }
}
