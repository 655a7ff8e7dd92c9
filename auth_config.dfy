/**
 * The `authorized` callback of the authentication configuration: the routing
 * decision made for every request from whether a user is signed in and the
 * request's path.
 */
module AuthConfig {
  import opened Wrappers
  import opened JsString

  /** The callback's verdict: let the request through, refuse it, or send it elsewhere. */
  datatype Decision = Allow | Deny | RedirectTo(path: string)

  /** The protected part of the site. */
  const DashboardPrefix := "/dashboard"

  /** The decision for a request to `pathname`, with or without a signed-in user. */
  function Authorized(isLoggedIn: bool, pathname: string): (d: Decision)
    ensures d == Allow <==> StartsWith(pathname, DashboardPrefix) == isLoggedIn
    ensures d == Deny <==> StartsWith(pathname, DashboardPrefix) && !isLoggedIn
    ensures d.RedirectTo? <==> !StartsWith(pathname, DashboardPrefix) && isLoggedIn
    ensures d.RedirectTo? ==> d.path == DashboardPrefix
  {
    var isOnDashboard := StartsWith(pathname, DashboardPrefix);
    if isOnDashboard then
      if isLoggedIn then Allow else Deny
    else if isLoggedIn then
      RedirectTo(DashboardPrefix)
    else
      Allow
  }

  /** A signed-in user, as far as the callback sees one. */
  datatype User = User(name: Option<string>, email: Option<string>)

  /** The session the framework passes in; `user` may be absent. */
  datatype Session = Session(user: Option<User>, expires: string)

  /** The request URL the framework passes in. */
  datatype NextUrl = NextUrl(origin: string, pathname: string, search: string)

  /** `!!auth?.user`: there is a session and it has a user. */
  function IsLoggedIn(auth: Option<Session>): (b: bool)
    ensures b <==> auth.Some? && auth.value.user.Some?
  {
    match auth
    case None => false
    case Some(s) => s.user.Some?
  }

  /** The callback as the framework calls it, with the whole session and URL. */
  function AuthorizedCallback(auth: Option<Session>, nextUrl: NextUrl): (d: Decision)
    ensures d == Deny <==> (auth.None? || auth.value.user.None?) && StartsWith(nextUrl.pathname, DashboardPrefix)
    ensures d == RedirectTo(DashboardPrefix) <==>
      auth.Some? && auth.value.user.Some? && !StartsWith(nextUrl.pathname, DashboardPrefix)
    ensures d == Allow <==> (auth.Some? && auth.value.user.Some?) == StartsWith(nextUrl.pathname, DashboardPrefix)
  {
    Authorized(IsLoggedIn(auth), nextUrl.pathname)
  }

  /** The decision depends only on whether a user is present and on the path, nothing else of the inputs. */
  lemma DecisionDependsOnlyOnUserAndPath(a1: Option<Session>, u1: NextUrl, a2: Option<Session>, u2: NextUrl)
    requires IsLoggedIn(a1) == IsLoggedIn(a2) && u1.pathname == u2.pathname
    ensures AuthorizedCallback(a1, u1) == AuthorizedCallback(a2, u2)
  {
  }

  /** A session without a user decides like no session; any user object, even one with no name or email, signs in. */
  lemma SessionUserDecides(expires: string, nextUrl: NextUrl)
    ensures AuthorizedCallback(Some(Session(None, expires)), nextUrl) == AuthorizedCallback(None, nextUrl)
    ensures AuthorizedCallback(Some(Session(Some(User(None, None)), expires)), nextUrl)
         == Authorized(true, nextUrl.pathname)
  {
  }

  /** Every path that begins with `/dashboard`, such as `/dashboard/x` or `/dashboardfoo`, is protected. */
  lemma DashboardSubtreeProtected(isLoggedIn: bool, rest: string)
    ensures Authorized(isLoggedIn, DashboardPrefix + rest) == if isLoggedIn then Allow else Deny
  {
    StartsWithAppend(DashboardPrefix, rest);
  }

  /** A path that differs from `/dashboard` within its first ten characters is not protected. */
  lemma OutsideDashboardNotProtected(isLoggedIn: bool, pathname: string, i: nat)
    requires i < |DashboardPrefix| && i < |pathname| && pathname[i] != DashboardPrefix[i]
    ensures Authorized(isLoggedIn, pathname) == if isLoggedIn then RedirectTo(DashboardPrefix) else Allow
  {
  }

  /** The four cases, one request each. */
  lemma DecisionTable()
    ensures Authorized(true, "/dashboard/x") == Allow
    ensures Authorized(false, "/dashboard/x") == Deny
    ensures Authorized(true, "/login") == RedirectTo("/dashboard")
    ensures Authorized(false, "/login") == Allow
    ensures Authorized(false, "/dashboardfoo") == Deny
  {
  }
}
