/**
 * The account pages: sign in, register and reset password. Each checks its form, calls its
 * authentication action once, and then navigates on success or shows an error with a
 * fallback message. The sign-in and register pages link to each other and pass the redirect
 * parameter along.
 */
module Accounts {
  import opened Wrappers
  import opened Text
  import opened UrlQuery
  import opened ServerActions
  import opened Redirects
  import opened UserStore
  import opened Session
  import Routes

  const MinPasswordLength := 6
  const ShortPasswordMessage := "Password must be at least 6 characters long"
  const MismatchMessage := "Passwords do not match"
  const InvalidLinkMessage := "Invalid reset link. Please request a new password reset."
  const LoginFailedMessage := "Login failed. Please check your credentials."
  const RegisterFailedMessage := "Registration failed. Please try again."
  const ResetFailedMessage := "Failed to reset password. Please try again."

  /** The authentication actions, with the arguments the pages pass. */
  datatype AuthAction =
    | LoginAction(email: string, password: string)
    | RegisterAction(username: string, email: string, password: string)
    | ResetPasswordAction(token: string, password: string)

  /** What a page does to the session and the router, in order. */
  datatype PageEvent = SessionSet(user: User) | Navigate(path: string) | Refresh

  /** What a successful sign-in returns. */
  datatype SignedIn = SignedIn(user: User)

  /** `password.length < 6`, counted in UTF-16 code units as JavaScript does. */
  predicate TooShort(password: string) {
    Utf16Length(password) < MinPasswordLength
  }

  /** Six characters or more always pass the length check, whatever the characters are. */
  lemma SixCharactersPass(password: string)
    requires |password| >= MinPasswordLength
    ensures !TooShort(password)
  {
  }

  /** The message a failed attempt shows: the action's error or rejection, or the page's fallback. */
  function FailureMessage<T>(reply: Reply<T>, fallback: string): (r: string)
    requires fallback != ""
    ensures reply.Threw? ==> r == OrElse(reply.message, UnexpectedErrorMessage)
    ensures reply.Returned? && reply.result.Err? ==> r == OrElse(reply.result.error, fallback)
    ensures reply.Returned? && reply.result.Ok? ==> r == fallback
    ensures r != ""
  {
    match reply
    case Threw(m) => OrElse(m, UnexpectedErrorMessage)
    case Returned(result) => OrElse(if result.Err? then result.error else "", fallback)
  }

  // ---------------------------------------------------------------------------------------
  // Links between the two forms
  // ---------------------------------------------------------------------------------------

  /** `page + (redirect ? "?redirect=" + redirect : "")`: the redirect is passed on when there is one. */
  function WithRedirect(page: string, redirect: Option<string>): string {
    page + (if Missing(redirect) then "" else "?redirect=" + redirect.value)
  }

  /** The sign-in page's link to registration. */
  function RegisterLink(redirect: Option<string>): string {
    WithRedirect(Routes.RegisterPage, redirect)
  }

  /** The registration page's link to sign in, as written: `login + "?redirect=" + redirect`. */
  function LoginLinkAsWritten(redirect: Option<string>): string {
    Routes.LoginPage + "?redirect=" + (if redirect.Some? then redirect.value else "null")
  }

  /** The registration page's link to sign in, passing the redirect on as the other link does. */
  function LoginLink(redirect: Option<string>): string {
    WithRedirect(Routes.LoginPage, redirect)
  }

  /** A redirect that the form parser reads back as it is: plain text without `&`. */
  predicate Carried(redirect: string) {
    IsPlain(redirect) && '&' !in redirect
  }

  /** A path with no query reads back no redirect. */
  lemma NoRedirect(page: string)
    requires '?' !in page
    ensures Get(Parse(QueryOf(page)), "redirect") == None
  {
    FindAbsent(page, '?');
    assert Split("", "&") == [""];
  }

  /** A redirect appended as it is, after a path with no query, reads back as it was. */
  lemma RawRedirectReadBack(page: string, redirect: string)
    requires '?' !in page && Carried(redirect)
    ensures Get(Parse(QueryOf(page + "?redirect=" + redirect)), "redirect") == Some(redirect)
  {
    assert page + "?redirect=" + redirect == page + "?" + ("redirect" + "=" + redirect);
    QueryAfterMark(page, "redirect" + "=" + redirect);
    RedirectIsWord();
    ParseSinglePair("redirect", redirect);
    DecodePlain(redirect);
  }

  /**
   * Following a link that passes the redirect on, and signing in or registering there, ends
   * where the redirect pointed, or at home when there was none.
   */
  lemma WithRedirectKeepsTarget(page: string, redirect: Option<string>)
    requires '?' !in page
    requires redirect.Some? ==> Carried(redirect.value)
    ensures AfterSignIn(Get(Parse(QueryOf(WithRedirect(page, redirect))), "redirect")) == AfterSignIn(redirect)
  {
    if Missing(redirect) {
      assert WithRedirect(page, redirect) == page;
      NoRedirect(page);
    } else {
      assert WithRedirect(page, redirect) == page + "?redirect=" + redirect.value;
      RawRedirectReadBack(page, redirect.value);
    }
  }

  lemma RegisterLinkKeepsRedirect(redirect: Option<string>)
    requires redirect.Some? ==> Carried(redirect.value)
    ensures AfterSignIn(Get(Parse(QueryOf(RegisterLink(redirect))), "redirect")) == AfterSignIn(redirect)
  {
    assert forall k :: 0 <= k < |Routes.RegisterPage| ==> Routes.RegisterPage[k] != '?';
    WithRedirectKeepsTarget(Routes.RegisterPage, redirect);
  }

  lemma LoginLinkKeepsRedirect(redirect: Option<string>)
    requires redirect.Some? ==> Carried(redirect.value)
    ensures AfterSignIn(Get(Parse(QueryOf(LoginLink(redirect))), "redirect")) == AfterSignIn(redirect)
  {
    assert forall k :: 0 <= k < |Routes.LoginPage| ==> Routes.LoginPage[k] != '?';
    WithRedirectKeepsTarget(Routes.LoginPage, redirect);
  }

  /**
   * Opened without a redirect, the registration page links to sign in with `redirect=null`,
   * and signing in from there goes to the relative path "null" instead of home.
   */
  lemma LoginLinkAsWrittenSendsToNull()
    ensures Get(Parse(QueryOf(LoginLinkAsWritten(None))), "redirect") == Some("null")
    ensures AfterSignIn(Get(Parse(QueryOf(LoginLinkAsWritten(None))), "redirect")) == "null"
    ensures AfterSignIn(None) == Routes.HomePage != "null"
  {
    assert IsPlain("null") && '&' !in "null";
    assert forall k :: 0 <= k < |Routes.LoginPage| ==> Routes.LoginPage[k] != '?';
    RawRedirectReadBack(Routes.LoginPage, "null");
  }

  // ---------------------------------------------------------------------------------------
  // Sign in
  // ---------------------------------------------------------------------------------------

  class LoginForm {
    /** `searchParams.get("redirect")` */
    const redirect: Option<string>
    var isLoading: bool
    var error: Option<string>
    var events: seq<PageEvent>
    /** Authentication actions called, in order. */
    var calls: seq<AuthAction>

    constructor(redirect: Option<string>)
      ensures this.redirect == redirect && !isLoading && error.None? && events == [] && calls == []
    {
      this.redirect := redirect;
      isLoading := false;
      error := None;
      events := [];
      calls := [];
    }

    /** The link to registration under the form: registering there ends where signing in here would. */
    function RegisterHref(): (r: string)
      reads this
      ensures (redirect.Some? ==> Carried(redirect.value)) ==>
        AfterSignIn(Get(Parse(QueryOf(r)), "redirect")) == AfterSignIn(redirect)
    {
      if redirect.Some? && !Carried(redirect.value) then RegisterLink(redirect)
      else RegisterLinkKeepsRedirect(redirect); RegisterLink(redirect)
    }

    /**
     * The submit, with `reply` as what awaiting the sign-in action gave and `auth` the session
     * context. On success the session takes the user before the router moves to the redirect
     * or home; otherwise the error shows with its fallback and the session is left alone.
     */
    method HandleSubmit(email: string, password: string, reply: Reply<SignedIn>, auth: AuthProvider)
      modifies this, auth, auth.storage
      ensures auth.calls == old(auth.calls) && auth.isLoading == old(auth.isLoading)
      ensures calls == old(calls) + [LoginAction(email, password)]
      ensures !isLoading
      ensures Delivered(reply) ==>
        var u := reply.result.data.value.user;
        && events == old(events) + [SessionSet(u), Navigate(AfterSignIn(redirect)), Refresh]
        && auth.user == Some(u) && auth.Mirrored() && error.None?
        && auth.storage.entries == if auth.storage.hasWindow then old(auth.storage.entries)[UserKey := EncodeUser(u)]
             else old(auth.storage.entries)
      ensures !Delivered(reply) ==>
        && events == old(events) && error == Some(FailureMessage(reply, LoginFailedMessage))
        && auth.user == old(auth.user) && auth.storage.entries == old(auth.storage.entries)
    {
      error := None;
      isLoading := true;
      calls := calls + [LoginAction(email, password)];
      if Delivered(reply) {
        var u := reply.result.data.value.user;
        auth.Login(u);
        events := events + [SessionSet(u)];
        events := events + [Navigate(AfterSignIn(redirect)), Refresh];
      } else {
        error := Some(FailureMessage(reply, LoginFailedMessage));
      }
      isLoading := false;
    }
  }

  // ---------------------------------------------------------------------------------------
  // Register
  // ---------------------------------------------------------------------------------------

  class RegisterForm {
    const redirect: Option<string>
    var isLoading: bool
    var error: Option<string>
    var events: seq<PageEvent>
    var calls: seq<AuthAction>

    constructor(redirect: Option<string>)
      ensures this.redirect == redirect && !isLoading && error.None? && events == [] && calls == []
    {
      this.redirect := redirect;
      isLoading := false;
      error := None;
      events := [];
      calls := [];
    }

    /**
     * The link to sign in under the form, as written: a carried redirect reads back as it was,
     * and no redirect reads back as the text "null".
     */
    function LoginHref(): (r: string)
      reads this
      ensures redirect.Some? && Carried(redirect.value) ==> Get(Parse(QueryOf(r)), "redirect") == redirect
      ensures redirect.None? ==> Get(Parse(QueryOf(r)), "redirect") == Some("null")
    {
      if redirect.None? then LoginLinkAsWrittenSendsToNull(); LoginLinkAsWritten(redirect)
      else if !Carried(redirect.value) then LoginLinkAsWritten(redirect)
      else
        assert forall k :: 0 <= k < |Routes.LoginPage| ==> Routes.LoginPage[k] != '?';
        RawRedirectReadBack(Routes.LoginPage, redirect.value);
        LoginLinkAsWritten(redirect)
    }

    /**
     * The submit: a password under six characters is refused before any call. Otherwise the
     * action is called once; on success the router moves to the redirect or home, and on
     * failure the error shows with its fallback.
     */
    method HandleSubmit<T>(username: string, email: string, password: string, reply: Reply<T>)
      modifies this
      ensures TooShort(password) ==>
        calls == old(calls) && events == old(events) && isLoading == old(isLoading)
        && error == Some(ShortPasswordMessage)
      ensures !TooShort(password) ==>
        calls == old(calls) + [RegisterAction(username, email, password)] && !isLoading
      ensures !TooShort(password) && Delivered(reply) ==>
        events == old(events) + [Navigate(AfterSignIn(redirect)), Refresh] && error.None?
      ensures !TooShort(password) && !Delivered(reply) ==>
        events == old(events) && error == Some(FailureMessage(reply, RegisterFailedMessage))
    {
      error := None;
      if Utf16Length(password) < MinPasswordLength {
        error := Some(ShortPasswordMessage);
        return;
      }
      isLoading := true;
      calls := calls + [RegisterAction(username, email, password)];
      if Delivered(reply) {
        events := events + [Navigate(AfterSignIn(redirect)), Refresh];
      } else {
        error := Some(FailureMessage(reply, RegisterFailedMessage));
      }
      isLoading := false;
    }
  }

  // ---------------------------------------------------------------------------------------
  // Reset password
  // ---------------------------------------------------------------------------------------

  /**
   * The reset form's checks, in order: a token, then the length, then the confirmation. The
   * message of the first that fails, or nothing when all pass.
   */
  function ResetCheck(token: Option<string>, password: string, confirmPassword: string): (r: Option<string>)
    ensures r == Some(InvalidLinkMessage) <==> Missing(token)
    ensures r == Some(ShortPasswordMessage) <==> !Missing(token) && TooShort(password)
    ensures r == Some(MismatchMessage) <==> !Missing(token) && !TooShort(password) && password != confirmPassword
    ensures r.None? <==> !Missing(token) && !TooShort(password) && password == confirmPassword
  {
    if Missing(token) then Some(InvalidLinkMessage)
    else if TooShort(password) then Some(ShortPasswordMessage)
    else if password != confirmPassword then Some(MismatchMessage)
    else None
  }

  /** With a token, a confirmed password of six characters or more is sent. */
  lemma ConfirmedPasswordPasses(token: string, password: string)
    requires token != "" && |password| >= MinPasswordLength
    ensures ResetCheck(Some(token), password, password).None?
  {
    SixCharactersPass(password);
  }

  /** What the reset page renders under its title. */
  datatype ResetView = ResetView(successNotice: bool, errorNotice: Option<string>, form: bool, loginLink: bool)

  class ResetPasswordForm {
    /** `searchParams.get("token")` */
    const token: Option<string>
    var isLoading: bool
    var error: Option<string>
    var success: bool
    var events: seq<PageEvent>
    var calls: seq<AuthAction>

    /** The first render with its effect: a missing token shows the invalid-link error at once. */
    constructor(token: Option<string>)
      ensures this.token == token && !isLoading && !success && events == [] && calls == []
      ensures error == if Missing(token) then Some(InvalidLinkMessage) else None
      ensures Missing(token) ==> View() == ResetView(false, Some(InvalidLinkMessage), false, true)
    {
      this.token := token;
      isLoading := false;
      success := false;
      events := [];
      calls := [];
      error := if Missing(token) then Some(InvalidLinkMessage) else None;
    }

    /**
     * The success notice once the reset succeeded; the error when it is set and non-empty; the
     * form while there is a token and no success yet; the link back to sign in under the form,
     * or alone when there is no token.
     */
    function View(): (r: ResetView)
      reads this
      ensures r.successNotice <==> success
      ensures r.errorNotice.Some? <==> error.Some? && error.value != ""
      ensures r.errorNotice.Some? ==> r.errorNotice == error
      ensures r.form <==> !success && !Missing(token)
      ensures Missing(token) ==> !r.form && r.loginLink
      ensures !r.loginLink <==> success && !Missing(token)
    {
      var form := !success && !Missing(token);
      ResetView(success, if error.Some? && error.value != "" then error else None, form, form || Missing(token))
    }

    /**
     * The submit: the validations of `ResetCheck` in order, then one call with the token and the
     * new password. Success is shown and the router moves to sign in; failure shows the error
     * with its fallback.
     */
    method HandleSubmit<T>(password: string, confirmPassword: string, reply: Reply<T>)
      modifies this
      ensures var check := ResetCheck(token, password, confirmPassword);
        && (check.Some? ==>
              calls == old(calls) && events == old(events) && error == check
              && success == old(success) && isLoading == old(isLoading))
        && (check.None? ==> calls == old(calls) + [ResetPasswordAction(token.value, password)] && !isLoading)
        && (check.None? && reply.Returned? && reply.result.Ok? ==>
              success && events == old(events) + [Navigate(Routes.LoginPage)] && error.None?
              && View() == ResetView(true, None, false, false))
        && (check.None? && !(reply.Returned? && reply.result.Ok?) ==>
              success == old(success) && events == old(events)
              && error == Some(FailureMessage(reply, ResetFailedMessage)))
    {
      error := None;
      var check := ResetCheck(token, password, confirmPassword);
      if check.Some? {
        error := check;
        return;
      }
      isLoading := true;
      calls := calls + [ResetPasswordAction(token.value, password)];
      if reply.Returned? && reply.result.Ok? {
        success := true;
        events := events + [Navigate(Routes.LoginPage)];
      } else {
        error := Some(FailureMessage(reply, ResetFailedMessage));
      }
      isLoading := false;
    }
  }
}
