/**
 * The route guard that runs before every request to the admin area
 * (`middleware.ts`). It reads the `authToken` cookie and either lets the
 * request through or redirects it to the login page.
 */
module Middleware {
  import opened Wrappers
  import opened Text

  const AuthCookie: string := "authToken"
  /** The one token value the guard accepts (and the login form writes). */
  const DemoToken: string := "demo-admin-token"
  const AdminPrefix: string := "/admin"

  /** `NextResponse.next()`, or a redirect to `/login`, with the query
      parameter `redirect` when `returnTo` is present. */
  datatype Response = Next | RedirectToLogin(returnTo: Option<string>)

  /** The guard's own test: a plain prefix test, so `/adminx` is protected too. */
  predicate IsProtected(pathname: string) {
    StartsWith(pathname, AdminPrefix)
  }

  /** `!token` where `token` is `cookies.get("authToken")?.value`:
      no cookie, or a cookie whose value is the empty string. */
  predicate MissingToken(token: Option<string>) {
    token.None? || token.value == ""
  }

  /** `middleware(request)`: exactly one of three outcomes for every input. */
  function Guard(pathname: string, token: Option<string>): (r: Response)
    ensures r == Next <==> !IsProtected(pathname) || token == Some(DemoToken)
    ensures r.RedirectToLogin? && r.returnTo.Some? <==> IsProtected(pathname) && MissingToken(token)
    ensures r.RedirectToLogin? && r.returnTo.Some? ==> r.returnTo.value == pathname
    ensures r == RedirectToLogin(None) <==>
              IsProtected(pathname) && !MissingToken(token) && token != Some(DemoToken)
  {
    if IsProtected(pathname) then
      if MissingToken(token) then RedirectToLogin(Some(pathname))
      else if token != Some(DemoToken) then RedirectToLogin(None)
      else Next
    else Next
  }

  /** `config.matcher: ["/admin/:path*"]`: the paths on which the framework
      runs the guard at all: `/admin` itself and everything below it. */
  predicate Matched(pathname: string) {
    pathname == AdminPrefix || StartsWith(pathname, AdminPrefix + "/")
  }

  /** What a navigation meets: the guard on matched paths, nothing elsewhere. */
  function Route(pathname: string, token: Option<string>): Response
  {
    if Matched(pathname) then Guard(pathname, token) else Next
  }

  /** Every path the matcher selects passes the guard's own prefix test,
      so on matched paths the guard never lets a request through unchecked. */
  lemma MatchedIsProtected(pathname: string)
    requires Matched(pathname)
    ensures IsProtected(pathname)
    ensures Route(pathname, None) == RedirectToLogin(Some(pathname))
  {
  }

  /** A navigation goes through exactly when the matcher skips the path or
      the cookie holds the demo token; every other one is sent to login. */
  lemma RouteNextIff(pathname: string, token: Option<string>)
    ensures Route(pathname, token) == Next <==> !Matched(pathname) || token == Some(DemoToken)
    ensures Route(pathname, token) != Next ==> Route(pathname, token).RedirectToLogin?
  {
    if Matched(pathname) {
      MatchedIsProtected(pathname);
    }
  }

  /** The prefix test is wider than the matcher: `/adminx` is protected by
      the guard's body, but the matcher never sends it there. */
  lemma PrefixWiderThanMatcher()
    ensures IsProtected("/adminx") && !Matched("/adminx")
    ensures Guard("/adminx", None) == RedirectToLogin(Some("/adminx"))
    ensures Route("/adminx", None) == Next
  {
    assert "/adminx"[..|AdminPrefix|] == AdminPrefix;
    assert "/adminx"[|AdminPrefix|] == 'x';
  }
}
