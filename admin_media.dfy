/** The admin media library (src/pages/adminPage/AdminMedia.tsx): the search, the
    upload form and its guard, and the delete. */
module AdminMedia {
  import opened Base
  import opened Text
  import opened Seqs

  datatype MediaType = ImageMedia | VideoMedia

  function TypeName(t: MediaType): string {
    match t
    case ImageMedia => "image"
    case VideoMedia => "video"
  }

  datatype Media = Media(id: string, title: string, description: Option<string>, url: string,
                         mediaType: MediaType)

  function MediaId(m: Media): string { m.id }

  function FilteredMedia(media: seq<Media>, searchTerm: string): seq<Media> {
    Filter(media, (m: Media) => ContainsIgnoringCase(m.title, searchTerm))
  }

  /** The search keeps, in order, exactly the items whose title contains the term
      ignoring case, and an empty term keeps them all. */
  lemma FilteredMediaSpec(media: seq<Media>, searchTerm: string)
    ensures IsSubsequence(FilteredMedia(media, searchTerm), media)
    ensures forall m :: m in FilteredMedia(media, searchTerm) <==> m in media && ContainsIgnoringCase(m.title, searchTerm)
    ensures searchTerm == "" ==> FilteredMedia(media, searchTerm) == media
  {
    FilterIsSubsequence(media, (m: Media) => ContainsIgnoringCase(m.title, searchTerm));
    if searchTerm == "" {
      forall k | 0 <= k < |media| ensures ContainsIgnoringCase(media[k].title, searchTerm) {
        ContainsIgnoringCaseEmpty(media[k].title);
      }
      FilterKeepsAll(media, (m: Media) => ContainsIgnoringCase(m.title, searchTerm));
    }
  }

  /** The multipart body of an upload, in the order it is appended; the file is the
      `media` part. */
  function UploadParts(title: string, description: string, t: MediaType, file: string): (parts: seq<(string, string)>)
    ensures |parts| == 4
    ensures parts[0] == ("title", title) && parts[1] == ("description", description)
    ensures parts[2] == ("type", TypeName(t)) && parts[3] == ("media", file)
  {
    [("title", title), ("description", description), ("type", TypeName(t)), ("media", file)]
  }

  datatype SuccessBody = SuccessBody(success: bool)
  datatype MediaBody = MediaBody(success: bool, media: seq<Media>)

  class AdminMediaPage {
    var mediaList: seq<Media>
    var loading: bool
    var showModal: bool
    var searchTerm: string
    var title: string
    var description: string
    var mediaType: MediaType
    var file: Option<string>
    var filePreview: Option<string>
    var isSubmitting: bool

    constructor ()
      ensures mediaList == [] && loading && !showModal && searchTerm == ""
      ensures title == "" && description == "" && mediaType == ImageMedia && file.None? && filePreview.None?
      ensures !isSubmitting
    {
      mediaList := [];
      loading := true;
      showModal := false;
      searchTerm := "";
      title := "";
      description := "";
      mediaType := ImageMedia;
      file := None;
      filePreview := None;
      isSubmitting := false;
    }

    /** The state `resetForm` leaves. */
    predicate FormCleared()
      reads this
    {
      title == "" && description == "" && mediaType == ImageMedia && file.None? && filePreview.None? && !showModal
    }

    /** `fetchMedia`, with `resp` the answer of `getMedia`. */
    method FetchMedia(resp: Response<MediaBody>) returns (toast: Option<Toast>)
      modifies this
      ensures resp.Ok? && resp.body.success ==> mediaList == resp.body.media
      ensures !(resp.Ok? && resp.body.success) ==> mediaList == old(mediaList)
      ensures toast.Some? <==> resp.Fail?
      ensures toast.Some? ==> toast.value == ErrorToast("Failed to fetch media")
      ensures !loading
      ensures title == old(title) && description == old(description) && mediaType == old(mediaType)
      ensures file == old(file) && filePreview == old(filePreview) && showModal == old(showModal)
      ensures searchTerm == old(searchTerm) && isSubmitting == old(isSubmitting)
    {
      loading := true;
      toast := None;
      match resp {
        case Ok(body) =>
          if body.success {
            mediaList := body.media;
          }
        case Fail(_) =>
          toast := Some(ErrorToast("Failed to fetch media"));
      }
      loading := false;
    }

    /** `handleFileChange`: a chosen file becomes the upload, with `preview` its
        object URL; an empty selection changes nothing. */
    method HandleFileChange(chosen: Option<string>, preview: string)
      modifies this
      ensures chosen.Some? ==> file == chosen && filePreview == Some(preview)
      ensures chosen.None? ==> file == old(file) && filePreview == old(filePreview)
      ensures mediaList == old(mediaList) && title == old(title) && description == old(description)
      ensures mediaType == old(mediaType) && showModal == old(showModal)
      ensures loading == old(loading) && searchTerm == old(searchTerm) && isSubmitting == old(isSubmitting)
    {
      if chosen.Some? {
        file := chosen;
        filePreview := Some(preview);
      }
    }

    /** The title input. */
    method SetTitle(value: string)
      modifies this
      ensures title == value
      ensures mediaList == old(mediaList) && description == old(description) && mediaType == old(mediaType)
      ensures file == old(file) && filePreview == old(filePreview) && showModal == old(showModal)
      ensures loading == old(loading) && searchTerm == old(searchTerm) && isSubmitting == old(isSubmitting)
    {
      title := value;
    }

    /** The Image and Video buttons. */
    method SetType(t: MediaType)
      modifies this
      ensures mediaType == t
      ensures mediaList == old(mediaList) && title == old(title) && description == old(description)
      ensures file == old(file) && filePreview == old(filePreview) && showModal == old(showModal)
      ensures loading == old(loading) && searchTerm == old(searchTerm) && isSubmitting == old(isSubmitting)
    {
      mediaType := t;
    }

    /** The "Upload Media" button. */
    method OpenModal()
      modifies this
      ensures showModal
      ensures mediaList == old(mediaList) && title == old(title) && description == old(description)
      ensures mediaType == old(mediaType) && file == old(file) && filePreview == old(filePreview)
      ensures loading == old(loading) && searchTerm == old(searchTerm) && isSubmitting == old(isSubmitting)
    {
      showModal := true;
    }

    method SetSearchTerm(term: string)
      modifies this
      ensures searchTerm == term
      ensures mediaList == old(mediaList) && title == old(title) && description == old(description)
      ensures mediaType == old(mediaType) && file == old(file) && showModal == old(showModal)
      ensures loading == old(loading) && filePreview == old(filePreview) && isSubmitting == old(isSubmitting)
    {
      searchTerm := term;
    }

    /** `resetForm`. */
    method ResetForm()
      modifies this
      ensures FormCleared()
      ensures mediaList == old(mediaList) && searchTerm == old(searchTerm) && loading == old(loading)
      ensures isSubmitting == old(isSubmitting)
    {
      title := "";
      description := "";
      mediaType := ImageMedia;
      file := None;
      filePreview := None;
      showModal := false;
    }

    /** `handleSubmit`, with `resp` the answer of `createMedia`. Returns the parts
        uploaded (None when the guard stopped it), the toast and whether the list is
        fetched again. */
    method HandleSubmit(resp: Response<SuccessBody>)
      returns (sent: Option<seq<(string, string)>>, toast: Option<Toast>, refetch: bool)
      modifies this
      ensures sent.None? <==> old(title) == "" || old(file).None?
      ensures sent.None? ==> toast == Some(ErrorToast("Title and file are required")) && !refetch
                             && title == old(title) && file == old(file) && showModal == old(showModal)
                             && description == old(description) && mediaType == old(mediaType)
                             && filePreview == old(filePreview) && isSubmitting == old(isSubmitting)
      ensures sent.Some? ==> sent.value == UploadParts(old(title), old(description), old(mediaType), old(file).value)
      ensures sent.Some? && resp.Ok? && resp.body.success ==>
                refetch && FormCleared() && toast == Some(SuccessToast("Media uploaded successfully"))
      ensures sent.Some? && !(resp.Ok? && resp.body.success) ==>
                !refetch && title == old(title) && description == old(description)
                && mediaType == old(mediaType) && file == old(file) && filePreview == old(filePreview)
                && showModal == old(showModal)
      ensures sent.Some? && resp.Ok? && !resp.body.success ==> toast.None?
      ensures sent.Some? && resp.Fail? ==>
                toast == Some(ErrorToast(ServerMessageOr(resp.failure, "Something went wrong")))
      ensures sent.Some? ==> !isSubmitting
      ensures mediaList == old(mediaList) && searchTerm == old(searchTerm) && loading == old(loading)
    {
      sent := None;
      refetch := false;
      if title == "" || file.None? {
        toast := Some(ErrorToast("Title and file are required"));
        return;
      }
      toast := None;
      isSubmitting := true;
      sent := Some(UploadParts(title, description, mediaType, file.value));
      match resp {
        case Ok(body) =>
          if body.success {
            toast := Some(SuccessToast("Media uploaded successfully"));
            refetch := true;
            ResetForm();
          }
        case Fail(f) =>
          toast := Some(ErrorToast(ServerMessageOr(f, "Something went wrong")));
      }
      isSubmitting := false;
    }

    /** `handleDelete(id)`, with `confirmed` the answer to `window.confirm` and `resp`
        the answer of `deleteMedia`. Returns the id sent (None when the user declined)
        and the toast. */
    method HandleDelete(id: string, confirmed: bool, resp: Response<SuccessBody>)
      returns (sent: Option<string>, toast: Option<Toast>)
      modifies this
      ensures sent == (if confirmed then Some(id) else None)
      ensures !confirmed ==> toast.None?
      ensures confirmed && resp.Ok? && resp.body.success ==>
                mediaList == WithoutKey(old(mediaList), MediaId, id)
                && toast == Some(SuccessToast("Media deleted successfully"))
      ensures !(confirmed && resp.Ok? && resp.body.success) ==> mediaList == old(mediaList)
      ensures confirmed && resp.Ok? && !resp.body.success ==> toast.None?
      ensures confirmed && resp.Fail? ==> toast == Some(ErrorToast("Failed to delete media"))
      ensures title == old(title) && file == old(file) && showModal == old(showModal)
      ensures loading == old(loading) && searchTerm == old(searchTerm) && description == old(description)
      ensures mediaType == old(mediaType) && filePreview == old(filePreview) && isSubmitting == old(isSubmitting)
    {
      sent := None;
      toast := None;
      if !confirmed {
        return;
      }
      sent := Some(id);
      match resp {
        case Ok(body) =>
          if body.success {
            toast := Some(SuccessToast("Media deleted successfully"));
            mediaList := WithoutKey(mediaList, MediaId, id);
          }
        case Fail(_) =>
          toast := Some(ErrorToast("Failed to delete media"));
      }
    }
  }
}
