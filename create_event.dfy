/** The organizer's event form (src/pages/organizerPage/CreateEvent.tsx): the ordered
    checks of `validateForm`, the field update of `handleChange`, and the multipart
    request `handleSubmit` assembles. */
module CreateEvent {
  import opened Base
  import opened Text
  import opened AppRoutes
  import Organizer
  import opened Seqs

  datatype PriceData = PriceData(price: string, quantity: string)

  datatype EventForm = EventForm(
    title: string, description: string, category: string, venue: string,
    startDate: string, endDate: string,
    normalPrice: PriceData, vipPrice: PriceData, isPublished: bool)

  const EmptyForm: EventForm :=
    EventForm("", "", "", "", "", "", PriceData("", ""), PriceData("", ""), false)

  datatype MessageKind = NoKind | SuccessKind | ErrorKind
  datatype Message = Message(kind: MessageKind, text: string)

  // ---- validation ----

  /** `!q || parseInt(q) <= 0`: empty, or a number that is not positive. A text
      `parseInt` cannot read is NaN, and `NaN <= 0` is false. */
  predicate QuantityRejected(q: string) {
    q == "" || (ParseInt(q).Some? && ParseInt(q).value <= 0)
  }

  /** Quantities written as positive numbers pass; zero and negative ones fail. */
  lemma QuantityRule(n: nat)
    ensures n > 0 ==> !QuantityRejected(NatToString(n))
    ensures QuantityRejected(['-'] + NatToString(n))
    ensures QuantityRejected("0")
  {
    ParseIntOfNatToString(n);
    ParseIntOfNegatedNatToString(n);
    ParseIntOfNatToString(0);
    assert NatToString(0) == "0";
  }

  /** One check of the form: whether it fails, and the message it shows then. */
  datatype Check = Check(failed: bool, message: string)

  /** The seven checks of `validateForm`, in the order it makes them. */
  function Checks(f: EventForm): seq<Check> {
    [ Check(Trim(f.title) == "", "Event title is required"),
      Check(f.startDate == "", "Start date is required"),
      Check(f.normalPrice.price == "", "Normal price is required"),
      Check(f.venue == "", "Venue is required"),
      Check(f.category == "", "Category is required"),
      Check(QuantityRejected(f.normalPrice.quantity), "Normal ticket quantity must be greater than 0"),
      Check(QuantityRejected(f.vipPrice.quantity), "VIP ticket quantity must be greater than 0") ]
  }

  /** Check `i` fails and every check before it passes. */
  predicate FirstFailedAt(cs: seq<Check>, i: int) {
    0 <= i < |cs| && cs[i].failed && forall j :: 0 <= j < i ==> !cs[j].failed
  }

  /** What `validateForm` decides: the message of the first check that fails, None
      when the form may be sent. */
  function ValidationError(f: EventForm): Option<string> {
    if Trim(f.title) == "" then Some("Event title is required")
    else if f.startDate == "" then Some("Start date is required")
    else if f.normalPrice.price == "" then Some("Normal price is required")
    else if f.venue == "" then Some("Venue is required")
    else if f.category == "" then Some("Category is required")
    else if QuantityRejected(f.normalPrice.quantity) then Some("Normal ticket quantity must be greater than 0")
    else if QuantityRejected(f.vipPrice.quantity) then Some("VIP ticket quantity must be greater than 0")
    else None
  }

  /** The decision is the first failure of the check list: None when no check
      fails, otherwise the message of the first check that does. */
  lemma ValidationIsFirstFailure(f: EventForm)
    ensures ValidationError(f).None? <==> forall i :: 0 <= i < |Checks(f)| ==> !Checks(f)[i].failed
    ensures ValidationError(f).Some? ==>
              exists i :: FirstFailedAt(Checks(f), i) && Checks(f)[i].message == ValidationError(f).value
  {
    var cs := Checks(f);
    var k := FirstFailing(cs);
    if k < |cs| {
      assert ValidationError(f) == Some(cs[k].message);
      assert FirstFailedAt(cs, k);
    } else {
      assert ValidationError(f).None?;
    }
  }

  /** The index of the first of seven checks that fails, 7 when none fails. */
  function FirstFailing(cs: seq<Check>): (k: nat)
    requires |cs| == 7
    ensures k <= 7
    ensures forall j :: 0 <= j < k ==> !cs[j].failed
    ensures k < 7 ==> cs[k].failed
  {
    if cs[0].failed then 0
    else if cs[1].failed then 1
    else if cs[2].failed then 2
    else if cs[3].failed then 3
    else if cs[4].failed then 4
    else if cs[5].failed then 5
    else if cs[6].failed then 6
    else 7
  }

  /** The form passes exactly when every required entry is there: a title that is
      not only whitespace, a start date, a normal price, a venue, a category, and two
      quantities that are not rejected. */
  lemma ValidIff(f: EventForm)
    ensures ValidationError(f).None? <==>
              !AllSpace(f.title) && f.startDate != "" && f.normalPrice.price != ""
              && f.venue != "" && f.category != ""
              && !QuantityRejected(f.normalPrice.quantity) && !QuantityRejected(f.vipPrice.quantity)
  {
    TrimEmptyIffAllSpace(f.title);
  }

  /** A blank title is reported first, whatever else is missing. */
  lemma BlankTitleFirst(f: EventForm)
    requires AllSpace(f.title)
    ensures ValidationError(f) == Some("Event title is required")
  {
    TrimEmptyIffAllSpace(f.title);
  }

  /** The description, the end date and the VIP price are never looked at. */
  lemma OptionalEntriesIgnored(f: EventForm, description: string, endDate: string, vip: string)
    ensures ValidationError(f.(description := description, endDate := endDate,
                               vipPrice := f.vipPrice.(price := vip)))
            == ValidationError(f)
  {
  }

  // ---- handleChange ----

  /** Where an input's `name` points: a nested `parent.child` entry or a top-level one. */
  datatype FieldPath = Top(name: string) | Nested(parent: string, child: string)

  /** `name.includes(".")` and `const [parent, child] = name.split(".")`. */
  function FieldPathOf(name: string): (p: FieldPath)
    ensures '.' !in name ==> p == Top(name)
  {
    if '.' in name then
      var parent := UpTo(name, '.');
      Nested(parent, UpTo(name[|parent| + 1..], '.'))
    else Top(name)
  }

  /** A dotted name is read back as the two names it joins. */
  lemma FieldPathOfDotted(parent: string, child: string)
    requires '.' !in parent && '.' !in child
    ensures FieldPathOf(parent + "." + child) == Nested(parent, child)
  {
    var name := parent + "." + child;
    assert name[|parent|] == '.';
    UpToOfJoin(parent, '.', child);
    assert name[|parent| + 1..] == child;
    UpToWithout(child, '.');
  }

  /** `{ ...prev, [child]: value }` on a price entry; a key the record does not have
      is not read anywhere, so the entry is unchanged. */
  function SetPriceEntry(p: PriceData, child: string, value: string): PriceData {
    if child == "price" then p.(price := value)
    else if child == "quantity" then p.(quantity := value)
    else p
  }

  /** The form after a change event from input `name` (a checkbox reports `checked`,
      any other input its `value`). Names the form has no input for leave it as it
      is. */
  function ApplyChange(f: EventForm, name: string, value: string, isCheckbox: bool, checked: bool): EventForm {
    match FieldPathOf(name)
    case Nested(parent, child) =>
      if parent == "normalPrice" then f.(normalPrice := SetPriceEntry(f.normalPrice, child, value))
      else if parent == "vipPrice" then f.(vipPrice := SetPriceEntry(f.vipPrice, child, value))
      else f
    case Top(n) =>
      if isCheckbox then (if n == "isPublished" then f.(isPublished := checked) else f)
      else if n == "title" then f.(title := value)
      else if n == "description" then f.(description := value)
      else if n == "category" then f.(category := value)
      else if n == "venue" then f.(venue := value)
      else if n == "startDate" then f.(startDate := value)
      else if n == "endDate" then f.(endDate := value)
      else f
  }

  /** Typing into `normalPrice.quantity`, say, sets that one nested entry and leaves
      the other entry of the pair, the other price and every top-level field as they
      were. */
  lemma NestedChangeTouchesOneEntry(f: EventForm, parent: string, child: string, value: string,
                                    isCheckbox: bool, checked: bool)
    requires parent == "normalPrice" || parent == "vipPrice"
    requires child == "price" || child == "quantity"
    ensures var g := ApplyChange(f, parent + "." + child, value, isCheckbox, checked);
      g.title == f.title && g.description == f.description && g.category == f.category
      && g.venue == f.venue && g.startDate == f.startDate && g.endDate == f.endDate
      && g.isPublished == f.isPublished
      && (parent == "normalPrice" ==> g.vipPrice == f.vipPrice)
      && (parent == "vipPrice" ==> g.normalPrice == f.normalPrice)
      && var p := if parent == "normalPrice" then g.normalPrice else g.vipPrice;
         var q := if parent == "normalPrice" then f.normalPrice else f.vipPrice;
         (child == "price" ==> p.price == value && p.quantity == q.quantity)
         && (child == "quantity" ==> p.quantity == value && p.price == q.price)
  {
    FieldPathOfDotted(parent, child);
  }

  /** The publish checkbox stores its `checked` flag; a text input stores its text. */
  lemma TopLevelChange(f: EventForm, value: string, checked: bool)
    ensures ApplyChange(f, "isPublished", value, true, checked) == f.(isPublished := checked)
    ensures ApplyChange(f, "title", value, false, checked) == f.(title := value)
    ensures ApplyChange(f, "endDate", value, false, checked) == f.(endDate := value)
  {
    assert '.' !in "isPublished" && '.' !in "title" && '.' !in "endDate";
  }

  // ---- handleSubmit ----

  /** A ticket quantity as `JSON.stringify` writes it: left out (undefined), null
      (NaN), or a number. */
  datatype JsonQuantity = Omitted | NullNaN | Number(n: int)

  /** `q ? parseInt(q) : undefined`. */
  function QuantityJson(q: string): (j: JsonQuantity)
    ensures j.Omitted? <==> q == ""
    ensures j.Number? ==> ParseInt(q) == Some(j.n)
  {
    if q == "" then Omitted
    else match ParseInt(q)
      case Some(n) => Number(n)
      case None => NullNaN
  }

  /** A selected file, with the MIME type the browser reports for it. */
  datatype Upload = Upload(fileName: string, mimeType: string)

  /** One `FormData.append`: a text entry, a price entry (the price text, which the page
      converts with `parseFloat`, and its quantity), or the image file. */
  datatype Part = TextPart(key: string, text: string)
                | PricePart(key: string, priceText: string, quantity: JsonQuantity)
                | FilePart(key: string, file: Upload)

  function Keys(parts: seq<Part>): (ks: seq<string>)
    ensures |ks| == |parts|
    ensures forall i :: 0 <= i < |parts| ==> ks[i] == parts[i].key
  {
    seq(|parts|, i requires 0 <= i < |parts| => parts[i].key)
  }

  lemma KeysAppend(a: seq<Part>, b: seq<Part>)
    ensures Keys(a + b) == Keys(a) + Keys(b)
  {
  }

  /** The keys sent, in order: the two optional ones only when present. */
  function PayloadKeys(hasEndDate: bool, hasImage: bool): seq<string> {
    ["title", "description", "category", "venue", "startDate"]
    + (if hasEndDate then ["endDate"] else [])
    + ["normalPrice", "vipPrice", "isPublished"]
    + (if hasImage then ["image"] else [])
  }

  function BasicParts(f: EventForm): seq<Part> {
    [TextPart("title", f.title), TextPart("description", f.description), TextPart("category", f.category),
     TextPart("venue", f.venue), TextPart("startDate", f.startDate)]
  }

  function EndDateParts(f: EventForm): seq<Part> {
    if f.endDate != "" then [TextPart("endDate", f.endDate)] else []
  }

  function PriceParts(f: EventForm): seq<Part> {
    [PricePart("normalPrice", f.normalPrice.price, QuantityJson(f.normalPrice.quantity)),
     PricePart("vipPrice", f.vipPrice.price, QuantityJson(f.vipPrice.quantity)),
     TextPart("isPublished", if f.isPublished then "true" else "false")]
  }

  function ImageParts(image: Option<Upload>): seq<Part> {
    if image.Some? then [FilePart("image", image.value)] else []
  }

  /** The entries `handleSubmit` appends, in the order it appends them. */
  function Payload(f: EventForm, image: Option<Upload>): seq<Part> {
    BasicParts(f) + EndDateParts(f) + PriceParts(f) + ImageParts(image)
  }

  /** An entry holds what the form has under its key. */
  predicate EntryCarries(p: Part, f: EventForm, image: Option<Upload>) {
    match p
    case TextPart(k, t) =>
      (k == "title" ==> t == f.title) && (k == "description" ==> t == f.description)
      && (k == "category" ==> t == f.category) && (k == "venue" ==> t == f.venue)
      && (k == "startDate" ==> t == f.startDate) && (k == "endDate" ==> t == f.endDate)
      && (k == "isPublished" ==> t == if f.isPublished then "true" else "false")
    case PricePart(k, price, q) =>
      (k == "normalPrice" && price == f.normalPrice.price && q == QuantityJson(f.normalPrice.quantity))
      || (k == "vipPrice" && price == f.vipPrice.price && q == QuantityJson(f.vipPrice.quantity))
    case FilePart(k, file) => k == "image" && image == Some(file)
  }

  /** The request carries the form: its keys, each once and in order, with the
      optional ones only when present, and under each key the form's own value. */
  predicate CarriesForm(parts: seq<Part>, f: EventForm, image: Option<Upload>) {
    Keys(parts) == PayloadKeys(f.endDate != "", image.Some?)
    && forall p :: p in parts ==> EntryCarries(p, f, image)
  }

  /** No key is sent twice. */
  lemma PayloadKeysDistinct(hasEndDate: bool, hasImage: bool)
    ensures Distinct(PayloadKeys(hasEndDate, hasImage))
  {
  }

  lemma PayloadKeysHold(f: EventForm, image: Option<Upload>)
    ensures Keys(Payload(f, image)) == PayloadKeys(f.endDate != "", image.Some?)
  {
    var a, b, c, d := BasicParts(f), EndDateParts(f), PriceParts(f), ImageParts(image);
    KeysAppend(a, b);
    KeysAppend(a + b, c);
    KeysAppend(a + b + c, d);
    PartKeys(f, image);
  }

  lemma PartKeys(f: EventForm, image: Option<Upload>)
    ensures Keys(BasicParts(f)) == ["title", "description", "category", "venue", "startDate"]
    ensures Keys(EndDateParts(f)) == if f.endDate != "" then ["endDate"] else []
    ensures Keys(PriceParts(f)) == ["normalPrice", "vipPrice", "isPublished"]
    ensures Keys(ImageParts(image)) == if image.Some? then ["image"] else []
  {
  }

  lemma PayloadCarriesForm(f: EventForm, image: Option<Upload>)
    ensures CarriesForm(Payload(f, image), f, image)
  {
    PayloadKeysHold(f, image);
    var a, b, c, d := BasicParts(f), EndDateParts(f), PriceParts(f), ImageParts(image);
    forall p | p in Payload(f, image) ensures EntryCarries(p, f, image) {
      assert p in a || p in b || p in c || p in d;
    }
  }

  datatype CreateBody = CreateBody(success: bool, message: string)

  class CreateEventPage {
    var formData: EventForm
    var image: Option<Upload>
    var loading: bool
    var message: Message

    constructor ()
      ensures formData == EmptyForm && image.None? && !loading && message == Message(NoKind, "")
    {
      formData := EmptyForm;
      image := None;
      loading := false;
      message := Message(NoKind, "");
    }

    /** `handleChange` for one change event. */
    method HandleChange(name: string, value: string, isCheckbox: bool, checked: bool)
      modifies this
      ensures formData == ApplyChange(old(formData), name, value, isCheckbox, checked)
      ensures image == old(image) && loading == old(loading) && message == old(message)
    {
      formData := ApplyChange(formData, name, value, isCheckbox, checked);
    }

    /** `handleImageChange`: the first file of the input, when there is one, becomes
        the image; an empty selection keeps the image there was. */
    method HandleImageChange(file: Option<Upload>)
      modifies this
      ensures image == (if file.Some? then file else old(image))
      ensures formData == old(formData) && loading == old(loading) && message == old(message)
    {
      if file.Some? {
        image := file;
      }
    }

    /** `handleDrop`: a dropped file replaces the image only when its type starts with
        "image/"; anything else dropped is ignored. */
    method HandleDrop(file: Option<Upload>)
      modifies this
      ensures image == (if file.Some? && StartsWith(file.value.mimeType, "image/") then file else old(image))
      ensures formData == old(formData) && loading == old(loading) && message == old(message)
    {
      if file.Some? && StartsWith(file.value.mimeType, "image/") {
        image := file;
      }
    }

    /** `validateForm`: true when every check passes; otherwise false, with the
        message of the first failing check shown. */
    method ValidateForm() returns (ok: bool)
      modifies this
      ensures ok <==> ValidationError(formData).None?
      ensures !ok ==> message == Message(ErrorKind, ValidationError(formData).value)
      ensures ok ==> message == old(message)
      ensures formData == old(formData) && image == old(image) && loading == old(loading)
    {
      var f := formData;
      var error := "";
      if Trim(f.title) == "" {
        error := "Event title is required";
      } else if f.startDate == "" {
        error := "Start date is required";
      } else if f.normalPrice.price == "" {
        error := "Normal price is required";
      } else if f.venue == "" {
        error := "Venue is required";
      } else if f.category == "" {
        error := "Category is required";
      } else if QuantityRejected(f.normalPrice.quantity) {
        error := "Normal ticket quantity must be greater than 0";
      } else if QuantityRejected(f.vipPrice.quantity) {
        error := "VIP ticket quantity must be greater than 0";
      }
      ok := error == "";
      if !ok {
        message := Message(ErrorKind, error);
      }
    }

    /** `handleSubmit`, with `resp` the answer of `createEvent`. Returns the entries
        sent (None when validation stopped the request), the toast and where the page
        went. */
    method HandleSubmit(resp: Response<CreateBody>)
      returns (sent: Option<seq<Part>>, toast: Option<Toast>, navigateTo: Option<string>)
      modifies this
      ensures sent.Some? <==> ValidationError(old(formData)).None?
      ensures sent.None? ==> navigateTo.None? && toast.None? && loading == old(loading)
                             && message == Message(ErrorKind, ValidationError(old(formData)).value)
      ensures sent.Some? ==> sent.value == Payload(old(formData), old(image))
                             && CarriesForm(sent.value, old(formData), old(image))
      ensures sent.Some? ==> !loading
      ensures sent.Some? && resp.Ok? && resp.body.success ==>
                navigateTo == Some("/organizer/event-list") && message == old(message)
                && toast == Some(SuccessToast(if resp.body.message != "" then resp.body.message
                                              else "Event created successfully"))
      ensures sent.Some? && resp.Ok? && !resp.body.success ==>
                navigateTo.None? && toast.None?
                && message == Message(ErrorKind, if resp.body.message != "" then resp.body.message
                                                 else "Failed to create event")
      ensures sent.Some? && resp.Fail? ==>
                navigateTo.None?
                && message == Message(ErrorKind, ServerMessageOr(resp.failure, "Server error. Please try again."))
                && toast == Some(ErrorToast(ServerMessageOr(resp.failure, "Server error. Please try again.")))
      ensures formData == old(formData) && image == old(image)
    {
      sent := None;
      toast := None;
      navigateTo := None;
      var ok := ValidateForm();
      if !ok {
        return;
      }
      loading := true;
      var parts := AppendEntries(formData, image);
      PayloadCarriesForm(formData, image);
      sent := Some(parts);
      match resp {
        case Ok(body) =>
          if body.success {
            toast := Some(SuccessToast(if body.message != "" then body.message else "Event created successfully"));
            navigateTo := Some("/organizer/event-list");
          } else {
            message := Message(ErrorKind, if body.message != "" then body.message else "Failed to create event");
          }
        case Fail(fl) =>
          var errorMsg := ServerMessageOr(fl, "Server error. Please try again.");
          message := Message(ErrorKind, errorMsg);
          toast := Some(ErrorToast(errorMsg));
      }
      loading := false;
    }
  }

  /** The `formDataToSend.append` calls of `handleSubmit`, one entry at a time. */
  method AppendEntries(f: EventForm, image: Option<Upload>) returns (parts: seq<Part>)
    ensures parts == Payload(f, image)
  {
    parts := [];
    parts := parts + [TextPart("title", f.title)];
    parts := parts + [TextPart("description", f.description)];
    parts := parts + [TextPart("category", f.category)];
    parts := parts + [TextPart("venue", f.venue)];
    parts := parts + [TextPart("startDate", f.startDate)];
    assert parts == BasicParts(f);
    if f.endDate != "" {
      parts := parts + [TextPart("endDate", f.endDate)];
    }
    assert parts == BasicParts(f) + EndDateParts(f);
    ghost var front := parts;
    parts := parts + [PricePart("normalPrice", f.normalPrice.price, QuantityJson(f.normalPrice.quantity))];
    parts := parts + [PricePart("vipPrice", f.vipPrice.price, QuantityJson(f.vipPrice.quantity))];
    parts := parts + [TextPart("isPublished", if f.isPublished then "true" else "false")];
    assert parts == front + PriceParts(f);
    if image.Some? {
      parts := parts + [FilePart("image", image.value)];
    }
  }

  /** In a request that was sent both ticket quantities are there, and any quantity
      that was read as a number is positive. */
  lemma SentQuantitiesPositive(f: EventForm)
    requires ValidationError(f).None?
    ensures !QuantityJson(f.normalPrice.quantity).Omitted? && !QuantityJson(f.vipPrice.quantity).Omitted?
    ensures QuantityJson(f.normalPrice.quantity).Number? ==> QuantityJson(f.normalPrice.quantity).n > 0
    ensures QuantityJson(f.vipPrice.quantity).Number? ==> QuantityJson(f.vipPrice.quantity).n > 0
  {
    ValidIff(f);
  }

  /** A created event leads to "/organizer/event-list", which the table does not have:
      the router lands on "/". */
  lemma CreatedEventLandsOnRoot()
    ensures Resolve(AppRoutes.PathOf(["organizer", "event-list"])) == Redirect("/")
  {
    Organizer.DeadSidebarLinks("event-list");
  }
}
