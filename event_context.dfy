/** The session store of `ApiProvider` (src/context/EventContext.tsx): the signed-in
    user, the sidebar flag and the profile-loading flag, the auth calls that change
    them, and the request wrappers that turn every response into a uniform value. */
module EventContext {
  import opened Base

  datatype User = User(id: string, name: string, email: string, role: Option<string>)

  /** The body of `/api/auth/login` and `/api/auth/register`; `user` is None when the
      field is missing. */
  datatype AuthBody = AuthBody(success: bool, message: string, user: Option<User>)

  /** The body of `/api/auth/user-profile`. */
  datatype ProfileBody = ProfileBody(success: bool, user: Option<User>)

  /** The user after a login or register response: the response's user when it
      carries one, otherwise the current user. */
  function UserAfterAuth(current: Option<User>, resp: Response<AuthBody>): (u: Option<User>)
    ensures resp.Ok? && resp.body.user.Some? ==> u == resp.body.user
    ensures !(resp.Ok? && resp.body.user.Some?) ==> u == current
  {
    if resp.Ok? && resp.body.user.Some? then resp.body.user else current
  }

  /** The user after a profile fetch: replaced (possibly by None) by a body with
      `success`, cleared by a 401 or 403, kept otherwise. */
  function UserAfterProfile(current: Option<User>, resp: Response<ProfileBody>): (u: Option<User>)
    ensures resp.Ok? && resp.body.success ==> u == resp.body.user
    ensures resp.Fail? && IsAuthFailure(resp.failure) ==> u == None
    ensures u != current ==>
              (resp.Ok? && resp.body.success) || (resp.Fail? && IsAuthFailure(resp.failure))
  {
    match resp
    case Ok(body) => if body.success then body.user else current
    case Fail(f) => if IsAuthFailure(f) then None else current
  }

  /** Logging in or registering never signs anybody out. */
  lemma AuthKeepsSignedIn(current: Option<User>, resp: Response<AuthBody>)
    requires current.Some?
    ensures UserAfterAuth(current, resp).Some?
  {
  }

  /** A profile response that is neither a success nor an auth failure (a 500, a
      network error, `success: false`) leaves the session exactly as it was. */
  lemma ProfileKeepsOnOtherOutcomes(current: Option<User>, resp: Response<ProfileBody>)
    requires !(resp.Ok? && resp.body.success) && !(resp.Fail? && IsAuthFailure(resp.failure))
    ensures UserAfterProfile(current, resp) == current
  {
  }

  class SessionStore {
    var user: Option<User>
    var isSidebarVisible: bool
    var isLoadingProfile: bool

    constructor ()
      ensures user == None && !isSidebarVisible && isLoadingProfile
    {
      user := None;
      isSidebarVisible := false;
      isLoadingProfile := true;
    }

    /** `login(data)`: the body is returned, a failure is rethrown. */
    method Login(resp: Response<AuthBody>) returns (r: Response<AuthBody>)
      modifies this
      ensures r == resp
      ensures user == UserAfterAuth(old(user), resp)
      ensures isSidebarVisible == old(isSidebarVisible) && isLoadingProfile == old(isLoadingProfile)
    {
      if resp.Ok? && resp.body.user.Some? {
        user := resp.body.user;
      }
      r := resp;
    }

    /** `register(data)` treats its response exactly as `login` does. */
    method Register(resp: Response<AuthBody>) returns (r: Response<AuthBody>)
      modifies this
      ensures r == resp
      ensures user == UserAfterAuth(old(user), resp)
      ensures isSidebarVisible == old(isSidebarVisible) && isLoadingProfile == old(isLoadingProfile)
    {
      r := Login(resp);
    }

    /** `logout()`: the user is cleared only once the POST succeeded; a failed POST
        throws before `setUser(null)` and the user stays. */
    method Logout<T>(resp: Response<T>) returns (r: Response<T>)
      modifies this
      ensures r == resp
      ensures resp.Ok? ==> user == None
      ensures resp.Fail? ==> user == old(user)
      ensures isSidebarVisible == old(isSidebarVisible) && isLoadingProfile == old(isLoadingProfile)
    {
      if resp.Ok? {
        user := None;
      }
      r := resp;
    }

    /** The first step of `getUserProfile`: the loading flag goes up before the call. */
    method BeginProfileLoad()
      modifies this
      ensures isLoadingProfile
      ensures user == old(user) && isSidebarVisible == old(isSidebarVisible)
    {
      isLoadingProfile := true;
    }

    /** The rest of `getUserProfile`, once the response is in: the `finally` lowers
        the flag on every path, and nothing is thrown to the caller. */
    method FinishProfileLoad(resp: Response<ProfileBody>)
      modifies this
      ensures !isLoadingProfile
      ensures user == UserAfterProfile(old(user), resp)
      ensures isSidebarVisible == old(isSidebarVisible)
    {
      match resp {
        case Ok(body) =>
          if body.success {
            user := body.user;
          }
        case Fail(f) =>
          if IsAuthFailure(f) {
            user := None;
          }
      }
      isLoadingProfile := false;
    }

    /** The whole of `getUserProfile`, as one step. */
    method GetUserProfile(resp: Response<ProfileBody>)
      modifies this
      ensures !isLoadingProfile
      ensures user == UserAfterProfile(old(user), resp)
      ensures isSidebarVisible == old(isSidebarVisible)
    {
      BeginProfileLoad();
      FinishProfileLoad(resp);
    }
  }

  /** The body of an event-list call: `events` is None when the field is not an array. */
  datatype EventsBody<E> = EventsBody(success: bool, events: Option<seq<E>>)

  /** `getEvents`, `getEventsByCategory` and `getEventsByVenue`: the events only when
      the body reports success and holds an array, and `[]` on any other body and on
      any failure, which is never thrown. */
  function EventsOrEmpty<E>(resp: Response<EventsBody<E>>): (r: seq<E>)
    ensures r != [] ==> resp.Ok? && resp.body.success && resp.body.events == Some(r)
    ensures resp.Ok? && resp.body.success && resp.body.events.Some? ==> r == resp.body.events.value
  {
    match resp
    case Ok(body) => if body.success && body.events.Some? then body.events.value else []
    case Fail(_) => []
  }

  /** The wrappers that catch every failure and return a fixed body instead:
      `getCategories`, `getVenues`, `getEventById`, `getAllEvents` and
      `getDashboardStats`. */
  function BodyOr<T>(resp: Response<T>, fallback: T): (r: T)
    ensures resp.Ok? ==> r == resp.body
    ensures resp.Fail? ==> r == fallback
  {
    match resp
    case Ok(body) => body
    case Fail(_) => fallback
  }

  datatype ListBody<T> = ListBody(success: bool, items: seq<T>)

  /** `getCategories()` and `getVenues()`: a failure becomes `{success: false}` with an
      empty list. */
  function ListOrUnsuccessful<T>(resp: Response<ListBody<T>>): (r: ListBody<T>)
    ensures resp.Fail? ==> !r.success && r.items == []
    ensures resp.Ok? ==> r == resp.body
  {
    BodyOr(resp, ListBody(false, []))
  }

  /** `getAllOrders()` and `getAllUsers()`: the list when the body reports success,
      otherwise `[]`; a failure is not caught and reaches the caller. */
  function ItemsIfSuccess<T>(resp: Response<ListBody<T>>): (r: Response<seq<T>>)
    ensures resp.Fail? <==> r.Fail?
    ensures resp.Fail? ==> r.failure == resp.failure
    ensures r.Ok? && r.body != [] ==> resp.Ok? && resp.body.success && r.body == resp.body.items
    ensures resp.Ok? && resp.body.success ==> r == Ok(resp.body.items)
  {
    match resp
    case Ok(body) => Ok(if body.success then body.items else [])
    case Fail(f) => Fail(f)
  }

  /** `useEventContext()`: the provided context, or the error thrown outside a provider. */
  function UseEventContext<C>(provided: Option<C>): (r: Outcome<C>)
    ensures provided.Some? <==> r.Returned?
    ensures provided.Some? ==> r.value == provided.value
    ensures provided.None? ==> r.message == "useEventContext must be used within an ApiProvider"
  {
    match provided
    case Some(c) => Returned(c)
    case None => Threw("useEventContext must be used within an ApiProvider")
  }
}
