/**
 * The access gate of mediamorph/middleware.ts (lines 12-35): for each request
 * it looks at the URL's pathname and at whether the identity provider reports
 * a user id, and either lets the request through or redirects it.
 *
 * The `await auth()` call is the gate's only effect; here its answer is the
 * input `signedIn` (true when `userId` is set).
 */
module Middleware {
  import opened RouteMatcher

  /** What the gate answers: `NextResponse.next()` or one of its two redirects. */
  datatype Decision = Next | RedirectHome | RedirectSignIn
  {
    predicate IsRedirect()
    {
      !Next?
    }

    /** The pathname of the URL the response redirects to. */
    function Location(): (loc: string)
      requires IsRedirect()
      ensures loc == Dashboard || loc == SignInPage
      ensures RedirectHome? <==> loc == Dashboard
    {
      if RedirectHome? then Dashboard else SignInPage
    }
  }

  /**
   * The gate as written: the signed-in check of line 18, then, for an
   * anonymous caller, the two checks of lines 24 and 28 in that order, and
   * pass-through (line 33) when none fires.
   */
  function Decide(path: string, signedIn: bool): (d: Decision)
    ensures signedIn ==> d != RedirectSignIn
    ensures !signedIn ==> d != RedirectHome
    ensures d == RedirectHome ==> IsPublicRoute(path) && !IsAccessingDashboard(path)
    ensures d == RedirectSignIn ==> !IsPublicRoute(path) && !IsPublicApiRoute(path)
  {
    if signedIn && IsPublicRoute(path) && !IsAccessingDashboard(path) then
      RedirectHome
    else if !signedIn && !IsPublicRoute(path) && !IsPublicApiRoute(path) then
      RedirectSignIn
    else if !signedIn && IsApiRequest(path) && !IsPublicApiRoute(path) then
      // the check of line 28; `SecondAnonymousCheckRedundant` shows it never fires
      RedirectSignIn
    else
      Next
  }

  /** The gate with lines 28-30 removed: a single anonymous check. */
  function DecideCombined(path: string, signedIn: bool): (d: Decision)
    ensures d == Decide(path, signedIn)
  {
    if signedIn && IsPublicRoute(path) && !IsAccessingDashboard(path) then
      RedirectHome
    else if !signedIn && !IsPublicRoute(path) && !IsPublicApiRoute(path) then
      RedirectSignIn
    else
      Next
  }

  /** The three classes a pathname falls into. */
  datatype RouteClass = PublicPage | PublicApi | Protected

  /** Classification of a pathname against the two allow-lists. */
  function Classify(path: string): (c: RouteClass)
    ensures c == PublicPage <==> IsPublicRoute(path)
    ensures c == PublicApi <==> IsPublicApiRoute(path)
  {
    if IsPublicRoute(path) then PublicPage
    else if IsPublicApiRoute(path) then PublicApi
    else Protected
  }

  /**
   * The intended policy, stated by route class: a signed-in user is moved off
   * the public pages other than the dashboard, an anonymous user is kept off
   * every protected route, and everything else passes.
   */
  function Intended(c: RouteClass, onDashboard: bool, signedIn: bool): Decision
  {
    match c
    case PublicPage => if signedIn && !onDashboard then RedirectHome else Next
    case PublicApi => Next
    case Protected => if signedIn then Next else RedirectSignIn
  }
}
