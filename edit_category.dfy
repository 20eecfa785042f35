/** The category edit page (src/pages/organizerPage/EditCategory.tsx): who is sent
    away, how the loaded category fills the form, and what saving sends. */
module EditCategory {
  import opened Base
  import opened Text
  import opened AppRoutes
  import EventContext
  import Organizer

  /** The redirect effect: a signed-in user who is not an admin is sent to
      "/organizer"; while nobody is signed in, nothing happens. */
  function RoleRedirect(user: Option<EventContext.User>): (to: Option<string>)
    ensures to.Some? <==> user.Some? && user.value.role != Some("admin")
    ensures to.Some? ==> to.value == "/organizer"
  {
    if user.Some? && user.value.role != Some("admin") then Some("/organizer") else None
  }

  /** An organizer is bounced off this page although the route table admits
      organizers to `/organizer/edit-category/:id`. */
  lemma OrganizerBouncedFromAdmittedRoute(u: EventContext.User, id: string)
    requires u.role == Some("organizer") && IsSegment(id)
    ensures RoleRedirect(Some(u)) == Some("/organizer")
    ensures Resolve(PathOf(["organizer", "edit-category", id])) == Render(EditCategory, Roles(OrganizerRoles))
    ensures "organizer" in OrganizerRoles
  {
    var segs := ["organizer", "edit-category", id];
    Organizer.OrganizerPathMissesOtherSubtrees(segs);
    forall i | 0 <= i < 10 ensures !Matches(OrganizerRoutes[..10][i].pattern, segs) {
      if |OrganizerRoutes[i].pattern| == 3 {
        assert !SegMatches(OrganizerRoutes[i].pattern[1], segs[1]);
      }
    }
    assert Matches(OrganizerRoutes[10].pattern, segs);
    ResolvesInOrganizer(segs, 10);
  }

  datatype CategoryData = CategoryData(name: string, image: string)

  /** The body of `get-single-category`: the category may come as `category` or as
      `data`. */
  datatype CategoryBody = CategoryBody(success: bool, category: Option<CategoryData>, data: Option<CategoryData>)

  /** `response.data.category || response.data.data`. */
  function PickCategory(body: CategoryBody): (c: Option<CategoryData>)
    ensures body.category.Some? ==> c == body.category
    ensures body.category.None? ==> c == body.data
  {
    if body.category.Some? then body.category else body.data
  }

  /** A selected file. */
  datatype Upload = Upload(fileName: string)

  /** What saving sends: the trimmed name and, when one was chosen, the new image. */
  datatype CategoryPayload = CategoryPayload(name: string, image: Option<Upload>)

  /** The payload for a name and a selected image, or None when the trimmed name is
      empty and nothing may be sent. */
  function CategoryPayloadFor(name: string, image: Option<Upload>): (p: Option<CategoryPayload>)
    ensures p.None? <==> AllSpace(name)
    ensures p.Some? ==> p.value.name == Trim(name) && p.value.name != "" && p.value.image == image
  {
    TrimEmptyIffAllSpace(name);
    if Trim(name) == "" then None else Some(CategoryPayload(Trim(name), image))
  }

  /** The message a failed update shows: the server's message, its default when the
      server gave none, and a separate one when no response came back. */
  function UpdateErrorMessage(f: Failure): (m: string)
    ensures f.HttpStatus? && f.message != "" ==> m == f.message
    ensures f.HttpStatus? && f.message == "" ==> m == "Failed to update category"
    ensures f.Network? ==> m == "Server not responding. Please try again later."
  {
    match f
    case HttpStatus(_, msg) => if msg != "" then msg else "Failed to update category"
    case Network => "Server not responding. Please try again later."
  }

  datatype UpdateBody = UpdateBody(success: bool, message: string)

  class EditCategoryPage {
    var loading: bool
    var updating: bool
    var message: string
    var name: string
    var image: Option<Upload>
    var imagePreview: string
    var currentImage: string

    constructor ()
      ensures loading && !updating && message == "" && name == ""
      ensures image.None? && imagePreview == "" && currentImage == ""
    {
      loading := true;
      updating := false;
      message := "";
      name := "";
      image := None;
      imagePreview := "";
      currentImage := "";
    }

    /** `fetchCategory`, with `resp` the answer of `get-single-category`. Without an
        id it returns at once (and the spinner stays). Returns the toast and where the
        page navigated to. */
    method FetchCategory(baseUrl: string, id: string, resp: Response<CategoryBody>)
      returns (toast: Option<Toast>, navigateTo: Option<string>)
      modifies this
      ensures id == "" ==> navigateTo.None? && loading == old(loading) && name == old(name)
                           && currentImage == old(currentImage)
      ensures id != "" ==> !loading
      ensures id != "" && resp.Ok? && resp.body.success && PickCategory(resp.body).Some? ==>
                name == PickCategory(resp.body).value.name
                && currentImage == (if PickCategory(resp.body).value.image != ""
                                    then baseUrl + "/uploads/" + PickCategory(resp.body).value.image
                                    else old(currentImage))
      ensures id != "" && resp.Ok? && !(resp.body.success && PickCategory(resp.body).Some?) ==>
                name == old(name) && currentImage == old(currentImage)
      ensures navigateTo.Some? <==> id != "" && resp.Fail?
      ensures navigateTo.Some? ==>
                navigateTo.value == "/categories" && name == old(name) && currentImage == old(currentImage)
      ensures toast.Some? <==> navigateTo.Some?
      ensures toast.Some? ==> toast.value == ErrorToast("Failed to load category data")
      ensures updating == old(updating) && message == old(message) && image == old(image)
      ensures imagePreview == old(imagePreview)
    {
      toast := None;
      navigateTo := None;
      if id == "" {
        return;
      }
      loading := true;
      match resp {
        case Ok(body) =>
          if body.success {
            var category := PickCategory(body);
            if category.Some? {
              name := category.value.name;
              if category.value.image != "" {
                currentImage := baseUrl + "/uploads/" + category.value.image;
              }
            }
          }
        case Fail(_) =>
          toast := Some(ErrorToast("Failed to load category data"));
          navigateTo := Some("/categories");
      }
      loading := false;
    }

    /** `handleChange` on the name input. */
    method SetName(value: string)
      modifies this
      ensures name == value
      ensures loading == old(loading) && updating == old(updating) && message == old(message)
      ensures image == old(image) && imagePreview == old(imagePreview) && currentImage == old(currentImage)
    {
      name := value;
    }

    /** `handleImageChange` once the reader has produced the preview. */
    method SelectImage(file: Upload, preview: string)
      modifies this
      ensures image == Some(file) && imagePreview == preview
      ensures loading == old(loading) && updating == old(updating) && message == old(message)
      ensures name == old(name) && currentImage == old(currentImage)
    {
      image := Some(file);
      imagePreview := preview;
    }

    /** `removeImage`: the chosen file, its preview and the stored image go together. */
    method RemoveImage()
      modifies this
      ensures image.None? && imagePreview == "" && currentImage == ""
      ensures loading == old(loading) && updating == old(updating) && message == old(message)
      ensures name == old(name)
    {
      image := None;
      imagePreview := "";
      currentImage := "";
    }

    /** `handleSubmit`, with `resp` the answer of `update-category`. Returns what was
        sent (None when nothing was), the toast and where the page navigated to. */
    method HandleSubmit(id: string, resp: Response<UpdateBody>)
      returns (sent: Option<CategoryPayload>, toast: Option<Toast>, navigateTo: Option<string>)
      modifies this
      ensures id == "" ==> sent.None? && toast.None? && navigateTo.None? && message == old(message)
                           && updating == old(updating)
      ensures id != "" ==> sent == CategoryPayloadFor(name, image)
      ensures id != "" && sent.None? ==>
                message == "" && navigateTo.None? && updating == old(updating)
                && toast == Some(ErrorToast("Category name is required"))
      ensures sent.Some? ==> !updating
      ensures sent.Some? && resp.Ok? ==>
                message == ""
                && navigateTo == (if resp.body.success then Some("/organizer/category-list") else None)
                && toast == (if resp.body.success then Some(SuccessToast(resp.body.message)) else None)
      ensures sent.Some? && resp.Fail? ==>
                navigateTo.None? && message == UpdateErrorMessage(resp.failure)
                && toast == Some(ErrorToast(UpdateErrorMessage(resp.failure)))
      ensures loading == old(loading) && name == old(name) && image == old(image)
      ensures imagePreview == old(imagePreview) && currentImage == old(currentImage)
    {
      sent := None;
      toast := None;
      navigateTo := None;
      if id == "" {
        return;
      }
      message := "";
      var payload := CategoryPayloadFor(name, image);
      if payload.None? {
        toast := Some(ErrorToast("Category name is required"));
        return;
      }
      updating := true;
      sent := payload;
      match resp {
        case Ok(body) =>
          if body.success {
            toast := Some(SuccessToast(body.message));
            navigateTo := Some("/organizer/category-list");
          }
        case Fail(f) =>
          message := UpdateErrorMessage(f);
          toast := Some(ErrorToast(message));
      }
      updating := false;
    }
  }

  /** Saving successfully leads to "/organizer/category-list", which the table does
      not have: the router lands on "/". */
  lemma SavedCategoryLandsOnRoot()
    ensures Resolve(PathOf(["organizer", "category-list"])) == Redirect("/")
  {
    Organizer.DeadSidebarLinks("category-list");
  }
}
