/**
 * What the access gate of mediamorph/middleware.ts guarantees, for every
 * pathname and both identity states.
 */
module MiddlewareProperties {
  import opened RouteMatcher
  import opened Middleware

  /** The gate agrees with the policy stated by route class. */
  lemma DecideFollowsPolicy(path: string, signedIn: bool)
    ensures Decide(path, signedIn) == Intended(Classify(path), IsAccessingDashboard(path), signedIn)
  {
  }

  /** A signed-in user is redirected to "/home" exactly from "/", "/signin" and "/signup". */
  lemma SignedInRedirectedHome(path: string)
    ensures Decide(path, true) == RedirectHome <==> path == "/" || path == "/signin" || path == "/signup"
  {
  }

  /**
   * A signed-in user passes through everywhere else: on "/home" and on every
   * route off the public pages, including every "/api..." route.
   */
  lemma SignedInPassesElsewhere(path: string)
    ensures Decide(path, true) == Next <==> path == "/home" || !IsPublicRoute(path)
    ensures IsApiRequest(path) ==> Decide(path, true) == Next
  {
  }

  /** An anonymous user is sent to "/signin" exactly from routes on neither allow-list. */
  lemma AnonymousRedirectedToSignIn(path: string)
    ensures Decide(path, false) == RedirectSignIn <==> !IsPublicRoute(path) && !IsPublicApiRoute(path)
  {
  }

  /** An anonymous user passes through exactly on the four public pages and on "/api/videos". */
  lemma AnonymousPasses(path: string)
    ensures Decide(path, false) == Next <==>
      path in {"/", "/home", "/signin", "/signup", "/api/videos"}
  {
  }

  /**
   * No public page is an API request. So an anonymous API request that is not
   * the public API route is on neither allow-list and has already been
   * redirected by line 24: the check of line 28 never changes the outcome
   * (`DecideCombined` states the resulting equality).
   */
  lemma SecondAnonymousCheckRedundant(path: string)
    ensures !IsPublicRoute(path) || !IsApiRequest(path)
  {
  }

  /** The redirect target is itself let through for the same caller. */
  lemma NoRedirectLoop(path: string, signedIn: bool)
    requires Decide(path, signedIn).IsRedirect()
    ensures Decide(Decide(path, signedIn).Location(), signedIn) == Next
  {
  }

  /** Where a browser ends up after following the gate's redirects, and how many it followed. */
  datatype Landing = Landing(path: string, redirects: nat)

  /**
   * A browser that follows at most `limit` redirects, starting at `path`: each
   * visit asks the gate again with the same identity.
   */
  function Follow(path: string, signedIn: bool, limit: nat): (l: Landing)
    ensures l.redirects <= 1 && l.redirects <= limit
    ensures limit >= 1 ==> Decide(l.path, signedIn) == Next
    ensures l.redirects == 0 <==> l.path == path
    ensures l.redirects == 0 ==> limit == 0 || Decide(path, signedIn) == Next
    ensures l.redirects == 1 ==> Decide(path, signedIn).IsRedirect() && l.path == Decide(path, signedIn).Location()
    decreases limit
  {
    var d := Decide(path, signedIn);
    if limit == 0 || !d.IsRedirect() then Landing(path, 0)
    else
      var next := Follow(d.Location(), signedIn, limit - 1);
      NoRedirectLoop(path, signedIn);
      assert d.Location() != path;
      Landing(next.path, next.redirects + 1)
  }

  /** Anonymous "/api/videos/123": sub-paths of the public API route are protected. */
  lemma AnonymousVideoSubPathRedirected()
    ensures Decide("/api/videos/123", false) == RedirectSignIn
  {
  }

  /** Anonymous "/sign-in", the landing page's sign-in link, is not on the allow-list. */
  lemma AnonymousHyphenatedSignInRedirected()
    ensures Decide("/sign-in", false) == RedirectSignIn
  {
  }

  /** "/apix" counts as an API request, because the API test is a plain prefix test. */
  lemma PrefixTestIsLiteral()
    ensures IsApiRequest("/apix")
    ensures Decide("/apix", false) == RedirectSignIn
    ensures Decide("/api/videos", false) == Next
  {
  }
}
