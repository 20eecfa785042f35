/** The sign-up page (src/pages/userPage/RegisterPage.tsx): the required-field check,
    the email pattern, the account-type switch and what a submit does. */
module RegisterPage {
  import opened Base
  import opened Text
  import EventContext

  datatype RegisterForm = RegisterForm(name: string, email: string, phone: string,
                                       password: string, secretKey: string)

  const EmptyForm: RegisterForm := RegisterForm("", "", "", "", "")

  datatype AccountType = UserAccount | AdminAccount

  // ---- the email pattern `^[^\s@]+@[^\s@]+\.[^\s@]+$` ----

  /** Characters of the class `[^\s@]`. */
  predicate PlainChars(s: string) {
    forall i :: 0 <= i < |s| ==> !IsSpace(s[i]) && s[i] != '@'
  }

  /** `s` splits as the pattern's three groups: a non-empty local part, `@`, a
      non-empty domain part, `.`, a non-empty last part, none holding whitespace or
      `@` (the domain part may itself hold dots). */
  predicate EmailSplit(s: string, at: int, dot: int) {
    0 < at && at + 1 < dot && dot + 1 < |s| && s[at] == '@' && s[dot] == '.'
    && PlainChars(s[..at]) && PlainChars(s[at + 1..dot]) && PlainChars(s[dot + 1..])
  }

  /** What `emailRegex.test(s)` accepts: some split of `s` fits the pattern. */
  ghost predicate MatchesEmailPattern(s: string) {
    exists at, dot :: EmailSplit(s, at, dot)
  }

  /** The same test stated on the whole string: no whitespace, exactly one `@` that
      is not the first character, and a `.` after it with at least one character on
      either side of that dot. */
  predicate EmailAccepted(s: string) {
    var at := |UpTo(s, '@')|;
    NoSpace(s) && 0 < at < |s| && '@' !in s[at + 1..]
    && exists d :: at + 1 < d < |s| - 1 && s[d] == '.'
  }

  lemma PlainSlice(s: string, i: int, j: int)
    requires 0 <= i <= j <= |s|
    requires NoSpace(s) && '@' !in s[i..j]
    ensures PlainChars(s[i..j])
  {
    forall k | 0 <= k < j - i ensures !IsSpace(s[i..j][k]) && s[i..j][k] != '@' {
      assert s[i..j][k] == s[i + k];
      assert s[i..j][k] in s[i..j];
    }
  }

  /** The whole-string test and the pattern accept the same strings. */
  lemma EmailAcceptedIffPattern(s: string)
    ensures EmailAccepted(s) <==> MatchesEmailPattern(s)
  {
    var at := |UpTo(s, '@')|;
    if EmailAccepted(s) {
      var d :| at + 1 < d < |s| - 1 && s[d] == '.';
      assert s[..at] == UpTo(s, '@');
      PlainSlice(s, 0, at);
      assert s[at + 1..d] == s[at + 1..][..d - at - 1];
      assert '@' !in s[at + 1..d];
      PlainSlice(s, at + 1, d);
      assert s[d + 1..] == s[at + 1..][d - at..];
      assert '@' !in s[d + 1..];
      PlainSlice(s, d + 1, |s|);
      assert EmailSplit(s, at, d);
    }
    if MatchesEmailPattern(s) {
      var a, d :| EmailSplit(s, a, d);
      SplitHasNoSpace(s, a, d);
      SplitAtIsFirst(s, a, d);
      assert at == a;
      forall k | a + 1 <= k < |s| ensures s[k] != '@' {
        if k < d {
          assert s[k] == s[a + 1..d][k - a - 1];
        } else if k > d {
          assert s[k] == s[d + 1..][k - d - 1];
        }
      }
    }
  }

  lemma SplitHasNoSpace(s: string, at: int, dot: int)
    requires EmailSplit(s, at, dot)
    ensures NoSpace(s)
  {
    forall k | 0 <= k < |s| ensures !IsSpace(s[k]) {
      if k < at {
        assert s[k] == s[..at][k];
      } else if at < k < dot {
        assert s[k] == s[at + 1..dot][k - at - 1];
      } else if dot < k {
        assert s[k] == s[dot + 1..][k - dot - 1];
      }
    }
  }

  lemma SplitAtIsFirst(s: string, at: int, dot: int)
    requires EmailSplit(s, at, dot)
    ensures |UpTo(s, '@')| == at
  {
  }

  /** An accepted address has exactly one `@`, no whitespace, and a `.` after the `@`
      with characters on both sides of it. */
  lemma AcceptedEmailShape(s: string)
    requires EmailAccepted(s)
    ensures NoSpace(s)
    ensures exists at :: 0 < at < |s| && s[at] == '@'
                         && (forall k :: 0 <= k < |s| && k != at ==> s[k] != '@')
                         && exists d :: at + 1 < d < |s| - 1 && s[d] == '.'
  {
    var at := |UpTo(s, '@')|;
    forall k | 0 <= k < |s| && k != at ensures s[k] != '@' {
      if k < at {
        assert s[k] == UpTo(s, '@')[k];
      } else {
        assert s[k] == s[at + 1..][k - at - 1];
      }
    }
  }

  // ---- the form ----

  /** The first reason `handleSubmit` refuses the form, None when it sends it. */
  function SubmitError(f: RegisterForm): (err: Option<string>)
    ensures err == Some("All fields are required") <==>
              f.name == "" || f.email == "" || f.phone == "" || f.password == ""
    ensures err == Some("Invalid email address") <==>
              f.name != "" && f.email != "" && f.phone != "" && f.password != "" && !EmailAccepted(f.email)
    ensures err.None? || err == Some("All fields are required") || err == Some("Invalid email address")
  {
    if f.name == "" || f.email == "" || f.phone == "" || f.password == "" then Some("All fields are required")
    else if !EmailAccepted(f.email) then Some("Invalid email address")
    else None
  }

  /** The secret key is never checked, not even for an admin sign-up. */
  lemma SecretKeyNotRequired(f: RegisterForm, key: string)
    ensures SubmitError(f.(secretKey := key)) == SubmitError(f)
  {
  }

  /** The form is sent exactly when the four fields are filled in and the email fits
      the pattern. */
  lemma SentIffComplete(f: RegisterForm)
    ensures SubmitError(f).None? <==>
              f.name != "" && f.phone != "" && f.password != "" && MatchesEmailPattern(f.email)
  {
    EmailAcceptedIffPattern(f.email);
    if f.email == "" {
      assert !EmailAccepted(f.email);
    }
  }

  /** `{ ...form, [name]: value }` for the inputs the page has. */
  function SetField(f: RegisterForm, name: string, value: string): RegisterForm {
    if name == "name" then f.(name := value)
    else if name == "email" then f.(email := value)
    else if name == "phone" then f.(phone := value)
    else if name == "password" then f.(password := value)
    else if name == "secretKey" then f.(secretKey := value)
    else f
  }

  class RegisterPageState {
    var form: RegisterForm
    var loading: bool
    var message: Option<string>
    var accountType: AccountType

    constructor ()
      ensures form == EmptyForm && !loading && message.None? && accountType == UserAccount
    {
      form := EmptyForm;
      loading := false;
      message := None;
      accountType := UserAccount;
    }

    method HandleChange(name: string, value: string)
      modifies this
      ensures form == SetField(old(form), name, value)
      ensures loading == old(loading) && message == old(message) && accountType == old(accountType)
    {
      form := SetField(form, name, value);
    }

    /** `handleSubmit`, with `resp` the answer of `register(form)`. Returns the form
        sent (None when a check stopped it), the toast and where the page went. */
    method HandleSubmit(store: EventContext.SessionStore, resp: Response<EventContext.AuthBody>)
      returns (sent: Option<RegisterForm>, toast: Option<Toast>, navigateTo: Option<string>)
      modifies this, store
      ensures !loading
      ensures sent.None? <==> SubmitError(old(form)).Some?
      ensures sent.None? ==> message == SubmitError(old(form)) && navigateTo.None? && toast.None?
                             && store.user == old(store.user)
      ensures sent.Some? ==> sent.value == old(form)
                             && store.user == EventContext.UserAfterAuth(old(store.user), resp)
      ensures sent.Some? && resp.Ok? ==>
                navigateTo == Some("/login") && message.None?
                && toast == Some(SuccessToast(if resp.body.message != "" then resp.body.message
                                              else "Registration successful!"))
      ensures sent.Some? && resp.Fail? ==>
                navigateTo.None? && toast.None? && message == Some(ServerMessageOr(resp.failure, "Server error. Try again later."))
      ensures form == old(form) && accountType == old(accountType)
      ensures store.isSidebarVisible == old(store.isSidebarVisible)
      ensures store.isLoadingProfile == old(store.isLoadingProfile)
    {
      sent := None;
      toast := None;
      navigateTo := None;
      loading := true;
      message := None;
      if form.name == "" || form.email == "" || form.phone == "" || form.password == "" {
        message := Some("All fields are required");
        loading := false;
        return;
      }
      if !EmailAccepted(form.email) {
        message := Some("Invalid email address");
        loading := false;
        return;
      }
      sent := Some(form);
      var r := store.Register(resp);
      match r {
        case Ok(data) =>
          toast := Some(SuccessToast(if data.message != "" then data.message else "Registration successful!"));
          navigateTo := Some("/login");
        case Fail(f) =>
          message := Some(ServerMessageOr(f, "Server error. Try again later."));
      }
      loading := false;
    }

    /** `resetType`: back to a user sign-up, with the secret key and the message
        cleared and the other fields kept. */
    method ResetType()
      modifies this
      ensures form == old(form).(secretKey := "") && message.None? && accountType == UserAccount
      ensures loading == old(loading)
    {
      form := form.(secretKey := "");
      message := None;
      accountType := UserAccount;
    }

    /** The "Register as Admin" button. */
    method ChooseAdmin()
      modifies this
      ensures accountType == AdminAccount
      ensures form == old(form) && message == old(message) && loading == old(loading)
    {
      accountType := AdminAccount;
    }
  }
}
