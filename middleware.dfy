/**
 * The route guard run before each page request: signed-in users are kept away from the sign-in
 * pages, signed-out users away from the user pages, and an expired access token is renewed
 * with the refresh token.
 */
module Middleware {
  import opened Wrappers

  /** The cookie lifetimes, in seconds: fifteen minutes and seven days. */
  const AccessTokenMaxAge := 15 * 60
  const RefreshTokenMaxAge := 60 * 60 * 24 * 7

  /** A cookie the response sets. */
  datatype SetCookie = SetCookie(name: string, value: string, maxAge: int)

  /** The guard's response: a redirect deleting some cookies, or passing the request on setting some. */
  datatype Decision =
    | Redirect(location: string, deleted: seq<string>)
    | Continue(cookies: seq<SetCookie>)

  /** How the refresh request ended: with the new tokens, with a non-OK status, or by throwing. */
  datatype RefreshOutcome = Refreshed(accessToken: string, refreshToken: string) | Rejected | Threw

  predicate IsAuthPage(pathname: string) {
    pathname == "/auth/login" || pathname == "/auth/register"
  }

  predicate IsProtectedPage(pathname: string) {
    "/user" <= pathname
  }

  /** The refresh token sent to the refresh endpoint, or None when no refresh is attempted; "" is an absent cookie. */
  function RefreshRequest(pathname: string, accessToken: string, refreshToken: string): (r: Option<string>)
    ensures r.Some? <==> IsProtectedPage(pathname) && accessToken == "" && refreshToken != ""
    ensures r.Some? ==> r.value == refreshToken
  {
    if IsProtectedPage(pathname) && accessToken == "" && refreshToken != "" then Some(refreshToken) else None
  }

  /** `middleware` over the path, the two cookies ("" when absent) and the refresh outcome. */
  function Decide(pathname: string, accessToken: string, refreshToken: string, refresh: RefreshOutcome): (d: Decision)
    ensures d.Redirect? ==> d.location in {"/user/dashboard", "/auth/login"}
  {
    if IsAuthPage(pathname) && refreshToken != "" then Redirect("/user/dashboard", [])
    else if IsProtectedPage(pathname) && refreshToken == "" then Redirect("/auth/login", [])
    else if IsProtectedPage(pathname) && accessToken == "" && refreshToken != "" then
      match refresh
      case Refreshed(a, r) =>
        Continue([SetCookie("accessToken", a, AccessTokenMaxAge), SetCookie("refreshToken", r, RefreshTokenMaxAge)])
      case _ => Redirect("/auth/login", ["accessToken", "refreshToken"])
    else Continue([])
  }

  /** A sign-in or sign-up page with a refresh token sends the user to the dashboard. */
  lemma AuthPageSignedIn(pathname: string, accessToken: string, refreshToken: string, refresh: RefreshOutcome)
    requires IsAuthPage(pathname) && refreshToken != ""
    ensures Decide(pathname, accessToken, refreshToken, refresh) == Redirect("/user/dashboard", [])
    ensures RefreshRequest(pathname, accessToken, refreshToken).None?
  {
    AuthPageIsNotUserPage(pathname);
  }

  /** A user page without a refresh token sends the user to sign in. */
  lemma ProtectedSignedOut(pathname: string, accessToken: string, refresh: RefreshOutcome)
    requires IsProtectedPage(pathname)
    ensures Decide(pathname, accessToken, "", refresh) == Redirect("/auth/login", [])
  {
  }

  /** A user page with only a refresh token is renewed: both cookies are set with their lifetimes. */
  lemma RefreshSucceeds(pathname: string, refreshToken: string, a: string, r: string)
    requires IsProtectedPage(pathname) && refreshToken != ""
    ensures RefreshRequest(pathname, "", refreshToken) == Some(refreshToken)
    ensures Decide(pathname, "", refreshToken, Refreshed(a, r)) ==
      Continue([SetCookie("accessToken", a, 900), SetCookie("refreshToken", r, 604800)])
  {
    AuthPageIsNotUserPage(pathname);
  }

  /** A refused or failed renewal signs the user out: a redirect to sign in deleting both cookies. */
  lemma RefreshFails(pathname: string, refreshToken: string, refresh: RefreshOutcome)
    requires IsProtectedPage(pathname) && refreshToken != "" && !refresh.Refreshed?
    ensures Decide(pathname, "", refreshToken, refresh) == Redirect("/auth/login", ["accessToken", "refreshToken"])
  {
    AuthPageIsNotUserPage(pathname);
  }

  /** Every other request passes unchanged, and the refresh outcome matters only when a refresh is attempted. */
  lemma OtherwiseContinues(pathname: string, accessToken: string, refreshToken: string, refresh: RefreshOutcome)
    requires !(IsAuthPage(pathname) && refreshToken != "")
    requires !(IsProtectedPage(pathname) && (refreshToken == "" || accessToken == ""))
    ensures Decide(pathname, accessToken, refreshToken, refresh) == Continue([])
  {
  }

  /** The outcome of the refresh request only matters when one is sent. */
  lemma RefreshOutcomeIrrelevant(pathname: string, accessToken: string, refreshToken: string, o1: RefreshOutcome, o2: RefreshOutcome)
    requires RefreshRequest(pathname, accessToken, refreshToken).None?
    ensures Decide(pathname, accessToken, refreshToken, o1) == Decide(pathname, accessToken, refreshToken, o2)
  {
  }

  /** Cookies are deleted only on a failed renewal, and set only on a successful one. */
  lemma CookiesChangeOnlyOnRefresh(pathname: string, accessToken: string, refreshToken: string, refresh: RefreshOutcome)
    ensures var d := Decide(pathname, accessToken, refreshToken, refresh);
      && (d.Redirect? && d.deleted != [] ==> RefreshRequest(pathname, accessToken, refreshToken).Some? && !refresh.Refreshed?)
      && (d.Continue? && d.cookies != [] ==> RefreshRequest(pathname, accessToken, refreshToken).Some? && refresh.Refreshed?)
  {
  }

  /** The sign-in pages are not user pages, so a signed-out visit to them passes. */
  lemma AuthPagesNotProtected(pathname: string, accessToken: string, refresh: RefreshOutcome)
    requires IsAuthPage(pathname)
    ensures !IsProtectedPage(pathname)
    ensures Decide(pathname, accessToken, "", refresh) == Continue([])
  {
    AuthPageIsNotUserPage(pathname);
  }

  lemma AuthPageIsNotUserPage(pathname: string)
    ensures IsAuthPage(pathname) ==> !IsProtectedPage(pathname)
  {
    if IsAuthPage(pathname) {
      assert pathname[1] == 'a' != "/user"[1];
    }
  }
}
