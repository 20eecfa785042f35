/** The admin category manager (src/pages/adminPage/AdminCategories.tsx): the search,
    the edit form, the create-or-update submit and the delete. */
module AdminCategories {
  import opened Base
  import opened Text
  import opened Seqs
  import EventContext

  datatype Category = Category(id: string, name: string, image: Option<string>)

  function CategoryId(c: Category): string { c.id }

  function FilteredCategories(categories: seq<Category>, searchTerm: string): seq<Category> {
    Filter(categories, (c: Category) => ContainsIgnoringCase(c.name, searchTerm))
  }

  /** The search keeps, in order, exactly the categories whose name contains the term
      ignoring case, and an empty term keeps them all. */
  lemma FilteredCategoriesSpec(categories: seq<Category>, searchTerm: string)
    ensures IsSubsequence(FilteredCategories(categories, searchTerm), categories)
    ensures forall c :: c in FilteredCategories(categories, searchTerm) <==>
                        c in categories && ContainsIgnoringCase(c.name, searchTerm)
    ensures searchTerm == "" ==> FilteredCategories(categories, searchTerm) == categories
  {
    FilterIsSubsequence(categories, (c: Category) => ContainsIgnoringCase(c.name, searchTerm));
    if searchTerm == "" {
      forall k | 0 <= k < |categories| ensures ContainsIgnoringCase(categories[k].name, searchTerm) {
        ContainsIgnoringCaseEmpty(categories[k].name);
      }
      FilterKeepsAll(categories, (c: Category) => ContainsIgnoringCase(c.name, searchTerm));
    }
  }

  /** The request `handleSubmit` makes: the name, and the image only when one was
      chosen; update with the edited id when editing, else create. */
  datatype Request =
    | Create(name: string, image: Option<string>)
    | Update(id: string, name: string, image: Option<string>)

  /** The parts of the multipart body of a request. */
  function Parts(r: Request): (parts: seq<(string, string)>)
    ensures |parts| == if r.image.Some? then 2 else 1
    ensures parts[0] == ("name", r.name)
    ensures r.image.Some? ==> parts[1] == ("image", r.image.value)
  {
    [("name", r.name)] + (if r.image.Some? then [("image", r.image.value)] else [])
  }

  datatype SaveBody = SaveBody(success: bool, message: string)
  datatype SuccessBody = SuccessBody(success: bool)

  class AdminCategoriesPage {
    var categories: seq<Category>
    var loading: bool
    var showModal: bool
    var editingCategory: Option<Category>
    var searchTerm: string
    var name: string
    var image: Option<string>
    var imagePreview: Option<string>
    var isSubmitting: bool

    constructor ()
      ensures categories == [] && loading && !showModal && editingCategory.None? && searchTerm == ""
      ensures name == "" && image.None? && imagePreview.None? && !isSubmitting
    {
      categories := [];
      loading := true;
      showModal := false;
      editingCategory := None;
      searchTerm := "";
      name := "";
      image := None;
      imagePreview := None;
      isSubmitting := false;
    }

    /** The state `resetForm` leaves. */
    predicate FormCleared()
      reads this
    {
      name == "" && image.None? && imagePreview.None? && editingCategory.None? && !showModal
    }

    /** `fetchCategories`, with `answer` the server's answer to the request that
        `getCategories` makes. `getCategories` turns every failure into
        `{success: false, categories: []}`, so the page's `catch` and its "Failed to
        fetch categories" toast are never reached: a failed request keeps the list
        and shows nothing. */
    method FetchCategories(answer: Response<EventContext.ListBody<Category>>) returns (toast: Option<Toast>)
      modifies this
      ensures answer.Ok? && answer.body.success ==> categories == answer.body.items
      ensures !(answer.Ok? && answer.body.success) ==> categories == old(categories)
      ensures toast.None?
      ensures !loading
      ensures name == old(name) && editingCategory == old(editingCategory) && showModal == old(showModal)
      ensures image == old(image) && imagePreview == old(imagePreview) && isSubmitting == old(isSubmitting)
      ensures searchTerm == old(searchTerm)
    {
      loading := true;
      toast := None;
      var res := EventContext.ListOrUnsuccessful(answer);
      if res.success {
        categories := res.items;
      }
      loading := false;
    }

    /** `handleImageChange`: a chosen file becomes the image, with `preview` its
        object URL; an empty selection changes nothing. */
    method HandleImageChange(file: Option<string>, preview: string)
      modifies this
      ensures file.Some? ==> image == file && imagePreview == Some(preview)
      ensures file.None? ==> image == old(image) && imagePreview == old(imagePreview)
      ensures categories == old(categories) && name == old(name) && editingCategory == old(editingCategory)
      ensures showModal == old(showModal) && loading == old(loading) && searchTerm == old(searchTerm)
      ensures isSubmitting == old(isSubmitting)
    {
      if file.Some? {
        image := file;
        imagePreview := Some(preview);
      }
    }

    /** The name input. */
    method SetName(value: string)
      modifies this
      ensures name == value
      ensures categories == old(categories) && editingCategory == old(editingCategory)
      ensures showModal == old(showModal) && image == old(image) && imagePreview == old(imagePreview)
      ensures loading == old(loading) && searchTerm == old(searchTerm) && isSubmitting == old(isSubmitting)
    {
      name := value;
    }

    method SetSearchTerm(term: string)
      modifies this
      ensures searchTerm == term
      ensures categories == old(categories) && name == old(name) && editingCategory == old(editingCategory)
      ensures showModal == old(showModal) && image == old(image) && imagePreview == old(imagePreview)
      ensures loading == old(loading) && isSubmitting == old(isSubmitting)
    {
      searchTerm := term;
    }

    /** `resetForm`. */
    method ResetForm()
      modifies this
      ensures FormCleared()
      ensures categories == old(categories) && searchTerm == old(searchTerm) && loading == old(loading)
      ensures isSubmitting == old(isSubmitting)
    {
      name := "";
      image := None;
      imagePreview := None;
      editingCategory := None;
      showModal := false;
    }

    /** `handleEdit(category)`. */
    method HandleEdit(c: Category)
      modifies this
      ensures editingCategory == Some(c) && name == c.name && showModal
      ensures imagePreview == (if c.image.Some? && c.image.value != "" then c.image else None)
      ensures categories == old(categories) && image == old(image)
      ensures loading == old(loading) && searchTerm == old(searchTerm) && isSubmitting == old(isSubmitting)
    {
      editingCategory := Some(c);
      name := c.name;
      imagePreview := if c.image.Some? && c.image.value != "" then c.image else None;
      showModal := true;
    }

    /** `handleSubmit`, with `resp` the answer of the request made. Returns the
        request (None when the name check stopped it), the toast and whether the list
        is fetched again. */
    method HandleSubmit(resp: Response<SaveBody>)
      returns (sent: Option<Request>, toast: Option<Toast>, refetch: bool)
      modifies this
      ensures sent.None? <==> old(name) == ""
      ensures sent.None? ==> toast == Some(ErrorToast("Category name is required")) && !refetch
                             && editingCategory == old(editingCategory) && showModal == old(showModal)
                             && name == old(name) && image == old(image) && imagePreview == old(imagePreview)
                             && isSubmitting == old(isSubmitting)
      ensures sent.Some? && old(editingCategory).Some? ==>
                sent.value == Update(old(editingCategory).value.id, old(name), old(image))
      ensures sent.Some? && old(editingCategory).None? ==> sent.value == Create(old(name), old(image))
      ensures sent.Some? && resp.Ok? && resp.body.success ==>
                refetch && FormCleared()
                && toast == Some(SuccessToast(if old(editingCategory).Some? then "Category updated successfully"
                                              else "Category created successfully"))
      ensures sent.Some? && !(resp.Ok? && resp.body.success) ==>
                !refetch && name == old(name) && editingCategory == old(editingCategory)
                && showModal == old(showModal) && image == old(image) && imagePreview == old(imagePreview)
      ensures sent.Some? && resp.Ok? && !resp.body.success ==> toast == Some(ErrorToast(resp.body.message))
      ensures sent.Some? && resp.Fail? ==>
                toast == Some(ErrorToast(ServerMessageOr(resp.failure, "Something went wrong")))
      ensures sent.Some? ==> !isSubmitting
      ensures categories == old(categories) && searchTerm == old(searchTerm) && loading == old(loading)
    {
      sent := None;
      refetch := false;
      if name == "" {
        toast := Some(ErrorToast("Category name is required"));
        return;
      }
      isSubmitting := true;
      if editingCategory.Some? {
        sent := Some(Update(editingCategory.value.id, name, image));
      } else {
        sent := Some(Create(name, image));
      }
      match resp {
        case Ok(body) =>
          if body.success {
            toast := Some(SuccessToast(if editingCategory.Some? then "Category updated successfully"
                                       else "Category created successfully"));
            refetch := true;
            ResetForm();
          } else {
            toast := Some(ErrorToast(body.message));
          }
        case Fail(f) =>
          toast := Some(ErrorToast(ServerMessageOr(f, "Something went wrong")));
      }
      isSubmitting := false;
    }

    /** `handleDelete(id)`, with `confirmed` the answer to `window.confirm` and `resp`
        the answer of `deleteCategory`. Returns the id sent (None when the user
        declined) and the toast. */
    method HandleDelete(id: string, confirmed: bool, resp: Response<SuccessBody>)
      returns (sent: Option<string>, toast: Option<Toast>)
      modifies this
      ensures sent == (if confirmed then Some(id) else None)
      ensures !confirmed ==> toast.None?
      ensures confirmed && resp.Ok? && resp.body.success ==>
                categories == WithoutKey(old(categories), CategoryId, id)
                && toast == Some(SuccessToast("Category deleted successfully"))
      ensures !(confirmed && resp.Ok? && resp.body.success) ==> categories == old(categories)
      ensures confirmed && resp.Ok? && !resp.body.success ==> toast.None?
      ensures confirmed && resp.Fail? ==> toast == Some(ErrorToast("Failed to delete category"))
      ensures name == old(name) && editingCategory == old(editingCategory) && showModal == old(showModal)
      ensures loading == old(loading) && searchTerm == old(searchTerm) && image == old(image)
      ensures imagePreview == old(imagePreview) && isSubmitting == old(isSubmitting)
    {
      sent := None;
      toast := None;
      if !confirmed {
        return;
      }
      sent := Some(id);
      match resp {
        case Ok(body) =>
          if body.success {
            toast := Some(SuccessToast("Category deleted successfully"));
            categories := WithoutKey(categories, CategoryId, id);
          }
        case Fail(_) =>
          toast := Some(ErrorToast("Failed to delete category"));
      }
    }
  }
}
