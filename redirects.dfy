/**
 * The sign-in redirect the pages build: the login page's path with the current path carried,
 * percent-encoded, in its `redirect` parameter.
 */
module Redirects {
  import opened Wrappers
  import opened UrlQuery
  import Routes

  /** `${login}?redirect=${encodeURIComponent(pathname)}` */
  function LoginRedirect(pathname: string): string {
    Routes.LoginPage + "?redirect=" + EncodeUriComponent(pathname)
  }

  /** `redirect || home`: where the login and register pages go after success. */
  function AfterSignIn(redirect: Option<string>): (r: string)
    ensures redirect.Some? && redirect.value != "" ==> r == redirect.value
    ensures redirect.None? || redirect.value == "" ==> r == Routes.HomePage
  {
    if redirect.Some? && redirect.value != "" then redirect.value else Routes.HomePage
  }

  /** The login page reads the current path back out of the redirect it was sent. */
  lemma LoginRedirectReadBack(pathname: string)
    ensures Get(Parse(QueryOf(LoginRedirect(pathname))), "redirect") == Some(pathname)
    ensures pathname != "" ==> AfterSignIn(Get(Parse(QueryOf(LoginRedirect(pathname))), "redirect")) == pathname
  {
    RedirectRoundTrip(Routes.LoginPage, pathname);
  }
}
