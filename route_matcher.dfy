/**
 * Route matching used by the access gate (mediamorph/middleware.ts).
 *
 * The middleware builds its two allow-lists with the identity provider's
 * `createRouteMatcher`, whose implementation is not part of this model.
 * ASSUMPTION: a matcher built from a list of route strings accepts a request
 * exactly when the request's pathname is equal to one of the strings. Under
 * this assumption "/api/videos/123" is not matched by ["/api/videos"], and a
 * trailing slash ("/home/") is a different route from "/home".
 *
 * The API test of the middleware is the string method `startsWith`, which is
 * a literal prefix test: "/apix" starts with "/api".
 */
module RouteMatcher {

  /** A matcher over a list of route strings, under the exact-match assumption. */
  function Matches(patterns: seq<string>, path: string): (r: bool)
    ensures r <==> path in patterns
  {
    if patterns == [] then false
    else patterns[0] == path || Matches(patterns[1..], path)
  }

  /** `s.startsWith(prefix)`: compares the strings character by character. */
  function StartsWith(s: string, prefix: string): (r: bool)
    ensures r <==> prefix <= s
  {
    if prefix == [] then true
    else if s == [] then false
    else s[0] == prefix[0] && StartsWith(s[1..], prefix[1..])
  }

  /** Routes that anyone may visit as a page (mediamorph/middleware.ts lines 3-8). */
  const PublicPages: seq<string> := ["/signin", "/signup", "/", "/home"]

  /** Routes of the API that anyone may call (mediamorph/middleware.ts lines 9-11). */
  const PublicApiRoutes: seq<string> := ["/api/videos"]

  /** The page a signed-in user is sent to. */
  const Dashboard: string := "/home"

  /** The page an anonymous user is sent to. */
  const SignInPage: string := "/signin"

  /** The prefix that marks a request as an API request. */
  const ApiPrefix: string := "/api"

  /**
   * `isPublicRoute(req)`: the pathname is one of the four public pages,
   * "/signin", "/signup", "/" and "/home", and nothing else.
   */
  function IsPublicRoute(path: string): (r: bool)
    ensures r <==> path == "/signin" || path == "/signup" || path == "/" || path == "/home"
  {
    Matches(PublicPages, path)
  }

  /**
   * `isPublicApiRoute(req)`: the pathname is exactly the public video listing
   * "/api/videos"; none of its sub-paths match.
   */
  function IsPublicApiRoute(path: string): (r: bool)
    ensures r <==> path == "/api/videos"
  {
    Matches(PublicApiRoutes, path)
  }

  /** `isAccessingDashboard`: the pathname is exactly "/home", itself a public page. */
  function IsAccessingDashboard(path: string): (r: bool)
    ensures r <==> path == "/home"
    ensures r ==> IsPublicRoute(path)
  {
    path == Dashboard
  }

  /** `isApiRequest`: the pathname's first four characters are "/api". */
  function IsApiRequest(path: string): (r: bool)
    ensures r <==> |path| >= 4 && path[..4] == "/api"
  {
    StartsWith(path, ApiPrefix)
  }

  /** No public page is an API request, and the public API route is one. */
  lemma PublicPagesAreNotApi(path: string)
    ensures IsPublicRoute(path) ==> !IsApiRequest(path)
    ensures IsPublicApiRoute(path) ==> IsApiRequest(path) && !IsPublicRoute(path)
  {
  }
}
