/** The request middleware: signed-in users are sent away from the public
    pages to the dashboard, anonymous users are sent from every other page to
    the login page, remembering where they came from. Only the presence of the
    `auth` cookie matters. */
module Middleware {
  import opened Wrappers

  /** The pages reachable without signing in. */
  const PublicRoutes: seq<string> := ["/login", "/register", "/forgot-password"]

  const DashboardPath := "/dashboard"
  const LoginPath := "/login"

  /** Pass the request on, or redirect to `path`, with `from` as the `from`
      query parameter when present. */
  datatype Outcome = Next | Redirect(path: string, from: Option<string>)

  /** Membership by exact string equality, as `includes` tests it. */
  predicate IsPublic(pathname: string) {
    pathname in PublicRoutes
  }

  /** `middleware(request)` for a request to `pathname` whose `auth` cookie is
      `auth` (absent or present with some value). */
  function Decide(pathname: string, auth: Option<string>): (r: Outcome)
    ensures r.Next? <==> (IsPublic(pathname) <==> auth.None?)
    ensures r.Redirect? && auth.Some? ==> r == Redirect(DashboardPath, None)
    ensures r.Redirect? && auth.None? ==> r == Redirect(LoginPath, Some(pathname))
  {
    if IsPublic(pathname) then
      if auth.Some? then Redirect(DashboardPath, None) else Next
    else if auth.None? then Redirect(LoginPath, Some(pathname))
    else Next
  }

  /** The cookie's value plays no part, only whether it is there. */
  lemma OnlyPresenceMatters(pathname: string, v1: string, v2: string)
    ensures Decide(pathname, Some(v1)) == Decide(pathname, Some(v2))
  {
  }

  /** A redirect is never followed by another: the page it points to lets the
      same visitor through, so there is no redirect loop. */
  lemma NoRedirectLoop(pathname: string, auth: Option<string>)
    requires Decide(pathname, auth).Redirect?
    ensures Decide(Decide(pathname, auth).path, auth) == Next
  {
    assert DashboardPath !in PublicRoutes by {
      assert DashboardPath[1] != PublicRoutes[0][1] && DashboardPath[1] != PublicRoutes[1][1];
      assert |DashboardPath| != |PublicRoutes[2]|;
    }
  }

  /** `/login` itself is never redirected to `/login`. */
  lemma LoginNeverRedirectsToLogin(auth: Option<string>)
    ensures Decide(LoginPath, auth) != Redirect(LoginPath, Some(LoginPath))
  {
  }

  /** The public list is matched exactly: a trailing slash makes `/login/` a
      protected page. */
  lemma TrailingSlashIsProtected()
    ensures Decide("/login/", None) == Redirect(LoginPath, Some("/login/"))
  {
    assert |"/login/"| == 7;
    assert "/login/" != PublicRoutes[0] && "/login/" != PublicRoutes[1] && "/login/" != PublicRoutes[2];
  }
}
