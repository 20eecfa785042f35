/** The login page (src/pages/userPage/UserLogin.tsx): the form check, the email
    normalisation, where each role lands after signing in, and the Google URL. */
module UserLogin {
  import opened Base
  import opened Text
  import opened AppRoutes
  import EventContext

  /** The first failing check of `handleSubmit`, or None when the form may be sent:
      the email is checked before the password, and only for emptiness. */
  function LoginFormError(email: string, password: string): (err: Option<string>)
    ensures err.None? <==> email != "" && password != ""
    ensures email == "" ==> err == Some("Email required")
    ensures email != "" && password == "" ==> err == Some("Password required")
  {
    if email == "" then Some("Email required")
    else if password == "" then Some("Password required")
    else None
  }

  /** `email.toLowerCase().trim()`. */
  function NormalizeEmail(email: string): (e: string)
    ensures NoUpper(e)
    ensures e == [] || (!IsSpace(e[0]) && !IsSpace(e[|e| - 1]))
  {
    LowerHasNoUpper(email);
    var l := Lower(email);
    var t := Trim(l);
    TrimStartKeepsNoUpper(l);
    TrimEndKeepsNoUpper(TrimStart(l));
    TrimStartSpec(l);
    TrimEndSpec(TrimStart(l));
    t
  }

  lemma TrimStartKeepsNoUpper(s: string)
    requires NoUpper(s)
    ensures NoUpper(TrimStart(s))
  {
    var t := TrimStart(s);
    TrimStartSpec(s);
    forall i | 0 <= i < |t| ensures !IsUpper(t[i]) {
      assert t[i] == s[|s| - |t| + i];
    }
  }

  lemma TrimEndKeepsNoUpper(s: string)
    requires NoUpper(s)
    ensures NoUpper(TrimEnd(s))
  {
    var t := TrimEnd(s);
    TrimEndSpec(s);
    forall i | 0 <= i < |t| ensures !IsUpper(t[i]) {
      assert t[i] == s[i];
    }
  }

  /** Normalising an email that was already normalised changes nothing. */
  lemma NormalizeEmailIdempotent(email: string)
    ensures NormalizeEmail(NormalizeEmail(email)) == NormalizeEmail(email)
  {
    var e := NormalizeEmail(email);
    LowerOfLowerCase(e);
    if e != [] {
      TrimStartKeeps(e);
      TrimEndKeeps(e);
    }
  }

  lemma TrimEndKeeps(s: string)
    requires s != [] && !IsSpace(s[|s| - 1])
    ensures TrimEnd(s) == s
  {
  }

  /** What `login` is sent. */
  datatype Credentials = Credentials(email: string, password: string)

  /** Where a freshly signed-in user goes, by role; the form login and the Google
      token flow share this mapping. */
  function RedirectFor(role: Option<string>): (path: string)
    ensures role == Some("organizer") ==> path == "/organizer"
    ensures role == Some("admin") ==> path == "/admin"
    ensures role != Some("organizer") && role != Some("admin") ==> path == "/"
  {
    if role == Some("organizer") then "/organizer"
    else if role == Some("admin") then "/admin"
    else "/"
  }

  /** Every redirect lands on a page whose guard admits the role it was chosen for:
      organizers on the event list, admins on the dashboard, everybody else on the
      unguarded home page. */
  lemma OrganizerRedirectAdmitted()
    ensures Resolve(RedirectFor(Some("organizer"))) == Render(EventList, Roles(OrganizerRoles))
    ensures "organizer" in OrganizerRoles
  {
    PathOfOne("organizer");
    assert "/" + "organizer" == "/organizer";
    OrganizerPathResolves();
  }

  lemma OrganizerPathResolves()
    ensures Resolve(PathOf(["organizer"])) == Render(EventList, Roles(OrganizerRoles))
  {
    var segs := ["organizer"];
    OrganizerMissesPublicRoutes();
    assert !SegMatches(MyOrderRoutes[0].pattern[0], segs[0]);
    ResolvesInOrganizer(segs, 0);
  }

  lemma OrganizerMissesPublicRoutes()
    ensures NoneMatch(PublicRoutes, ["organizer"])
  {
    var segs := ["organizer"];
    forall j | 0 <= j < |PublicRoutes| ensures !Matches(PublicRoutes[j].pattern, segs) {
      if PublicRoutes[j].pattern != [] {
        assert !SegMatches(PublicRoutes[j].pattern[0], segs[0]);
      }
    }
  }

  lemma AdminMissesPublicRoutes()
    ensures NoneMatch(PublicRoutes, ["admin"])
  {
    var segs := ["admin"];
    LowerDiffers("admin", "about", 1);
    LowerDiffers("admin", "login", 0);
    forall j | 0 <= j < |PublicRoutes| ensures !Matches(PublicRoutes[j].pattern, segs) {
      if PublicRoutes[j].pattern != [] {
        assert !SegMatches(PublicRoutes[j].pattern[0], segs[0]);
      }
    }
  }

  lemma AdminMissesOrganizerRoutes()
    ensures NoneMatch(MyOrderRoutes, ["admin"]) && NoneMatch(OrganizerRoutes, ["admin"])
  {
    var segs := ["admin"];
    assert !SegMatches(MyOrderRoutes[0].pattern[0], segs[0]);
    forall j | 0 <= j < |OrganizerRoutes| ensures !Matches(OrganizerRoutes[j].pattern, segs) {
      assert !SegMatches(OrganizerRoutes[j].pattern[0], segs[0]);
    }
  }

  lemma AdminRedirectAdmitted()
    ensures Resolve(RedirectFor(Some("admin"))) == Render(AdminDashboardStats, Roles(AdminRoles))
    ensures "admin" in AdminRoles
  {
    PathOfOne("admin");
    assert "/" + "admin" == "/admin";
    AdminPathResolves();
  }

  lemma AdminPathResolves()
    ensures Resolve(PathOf(["admin"])) == Render(AdminDashboardStats, Roles(AdminRoles))
  {
    AdminMissesPublicRoutes();
    AdminMissesOrganizerRoutes();
    ResolvesInAdmin(["admin"], 0);
  }

  lemma OtherRedirectAdmitted(role: Option<string>)
    requires role != Some("organizer") && role != Some("admin")
    ensures Resolve(RedirectFor(role)) == Render(HomePage, Public)
  {
    ResolvesInPublic([], 0);
  }

  /** `(BASE_URL || '').replace(/\/$/, '')`: one trailing slash removed. */
  function StripTrailingSlash(base: string): (b: string)
    ensures base != [] && base[|base| - 1] == '/' ==> b + "/" == base
    ensures !(base != [] && base[|base| - 1] == '/') ==> b == base
  {
    if base != [] && base[|base| - 1] == '/' then base[..|base| - 1] else base
  }

  /** The fallback Google sign-in address. */
  function GoogleRedirectUrl(base: string): string {
    StripTrailingSlash(base) + "/api/auth/google"
  }

  /** A base with or without one trailing slash leads to the same address. */
  lemma GoogleRedirectIgnoresTrailingSlash(base: string)
    requires base == [] || base[|base| - 1] != '/'
    ensures GoogleRedirectUrl(base + "/") == GoogleRedirectUrl(base)
  {
    assert (base + "/")[..|base + "/"| - 1] == base;
  }

  class LoginForm {
    var email: string
    var password: string
    var message: string
    var loading: bool

    constructor ()
      ensures email == "" && password == "" && message == "" && !loading
    {
      email := "";
      password := "";
      message := "";
      loading := false;
    }

    /** `handleSubmit`, with `resp` the answer `login` would get. Returns what was
        sent to `login` (None when the form check stopped the submission) and where
        the page navigated to. */
    method HandleSubmit(store: EventContext.SessionStore, resp: Response<EventContext.AuthBody>)
      returns (sent: Option<Credentials>, navigateTo: Option<string>)
      modifies this, store
      ensures email == old(email) && password == old(password) && !loading
      ensures LoginFormError(email, password).Some? ==>
                sent.None? && navigateTo.None? && message == LoginFormError(email, password).value
                && store.user == old(store.user)
      ensures LoginFormError(email, password).None? ==>
                sent == Some(Credentials(NormalizeEmail(email), password))
                && store.user == EventContext.UserAfterAuth(old(store.user), resp)
      ensures LoginFormError(email, password).None? && resp.Ok? ==>
                message == ""
                && navigateTo == (if resp.body.user.Some? then Some(RedirectFor(resp.body.user.value.role)) else None)
      ensures LoginFormError(email, password).None? && resp.Fail? ==>
                navigateTo.None? && message == ServerMessageOr(resp.failure, "Server error. Try later!")
      ensures store.isSidebarVisible == old(store.isSidebarVisible)
      ensures store.isLoadingProfile == old(store.isLoadingProfile)
    {
      message := "";
      sent := None;
      navigateTo := None;
      var err := LoginFormError(email, password);
      if err.Some? {
        message := err.value;
        loading := false;
        return;
      }
      loading := true;
      sent := Some(Credentials(NormalizeEmail(email), password));
      var r := store.Login(resp);
      match r {
        case Ok(body) =>
          if body.user.Some? {
            navigateTo := Some(RedirectFor(body.user.value.role));
          }
        case Fail(f) =>
          message := ServerMessageOr(f, "Server error. Try later!");
      }
      loading := false;
    }
  }

  /** The Google token callback: a body with a user signs that user in and redirects
      by role; any other body, and any failure, changes nothing. */
  method HandleGoogleCredential(store: EventContext.SessionStore, resp: Response<EventContext.AuthBody>)
    returns (navigateTo: Option<string>)
    modifies store
    ensures store.user == EventContext.UserAfterAuth(old(store.user), resp)
    ensures navigateTo.Some? <==> resp.Ok? && resp.body.user.Some?
    ensures navigateTo.Some? ==> navigateTo.value == RedirectFor(resp.body.user.value.role)
    ensures store.isSidebarVisible == old(store.isSidebarVisible)
    ensures store.isLoadingProfile == old(store.isLoadingProfile)
  {
    navigateTo := None;
    if resp.Ok? && resp.body.user.Some? {
      store.user := resp.body.user;
      navigateTo := Some(RedirectFor(resp.body.user.value.role));
    }
  }
}
