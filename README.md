# MediaMorph access gate, modelled in Dafny

MediaMorph is a media-sharing web application. Users upload videos and images,
a media CDN stores and transforms them, and users browse the results. Its only
decision logic is the access gate in `mediamorph/middleware.ts`. The gate runs
before every page and API handler. It looks at the request's pathname and at
whether the identity provider reports a signed-in user. It then does one of
three things:

- it passes the request through;
- it redirects a signed-in user to `/home`;
- it redirects an anonymous user to `/signin`.

The gate uses two constant allow-lists. The public pages are `/signin`,
`/signup`, `/` and `/home`. The public API is `/api/videos`. It also uses an
exact test for the dashboard (`/home`) and a prefix test for API requests
(`/api`).

The model is pure: functions and lemmas, no state.

- `route_matcher.dfy` (module `RouteMatcher`) holds the allow-lists, the route
  matcher and the prefix test.
- `middleware.dfy` (module `Middleware`) holds the decision as written
  (`Decide`), the decision with the second anonymous check removed
  (`DecideCombined`) and a classification of pathnames into public page,
  public API and protected (`Classify`, `Intended`).
- `middleware_properties.dfy` (module `MiddlewareProperties`) proves what the
  gate guarantees. It also models a browser that follows redirects (`Follow`).

Modelling assumptions:

- The route matchers come from the identity provider's `createRouteMatcher`,
  whose code is not part of this model. The model assumes exact matching: a
  pathname matches a list when it equals one of its strings. So
  `/api/videos/123` and `/home/` are not public.
- `startsWith("/api")` is a literal prefix test. So `/apix` counts as an API
  request.
- The signed-in state is the input `signedIn`. It stands for the result of
  `await auth()` (true when `userId` is set).
- The input is the request's pathname. It can be any string; the gate
  requires nothing of it.

What the proofs show:

- The check at lines 28-30 never changes the outcome. No public page starts
  with `/api`. So an anonymous API request off the public API list has
  already been redirected at line 24.
- A signed-in user is never sent to `/signin`. An anonymous user is never
  sent to `/home`.
- The redirect target is let through for the same caller. So a browser
  follows at most one redirect.
- The landing page links to `/sign-in` (`mediamorph/app/page.tsx:134`). That
  path is not on the allow-list, so an anonymous visitor who follows the link
  is redirected to `/signin`.

## Model

| member | source | states |
|---|---|---|
| `RouteMatcher.Matches` | mediamorph/middleware.ts:3-11 | a route matcher built from a list accepts a pathname exactly when the pathname is in the list (the exact-match assumption) |
| `RouteMatcher.StartsWith` | mediamorph/middleware.ts:16 | the character-by-character `startsWith` test holds exactly when the prefix is a prefix of the string |
| `RouteMatcher.IsPublicRoute` | mediamorph/middleware.ts:3-8 | `isPublicRoute` accepts a pathname exactly when it is `/signin`, `/signup`, `/` or `/home` |
| `RouteMatcher.IsPublicApiRoute` | mediamorph/middleware.ts:9-11 | `isPublicApiRoute` accepts a pathname exactly when it is `/api/videos`; none of its sub-paths match |
| `RouteMatcher.IsAccessingDashboard` | mediamorph/middleware.ts:15 | `isAccessingDashboard` holds exactly when the pathname is `/home`, which is itself a public page |
| `RouteMatcher.IsApiRequest` | mediamorph/middleware.ts:16 | `isApiRequest` holds exactly when the pathname's first four characters are `/api` (so `/apix` counts) |
| `RouteMatcher.PublicPagesAreNotApi` | mediamorph/middleware.ts:3-16 | no public page is an API request; the public API route is an API request and not a public page |
| `Middleware.Decision.Location` | mediamorph/middleware.ts:18-30 | a redirect goes to `/home` or `/signin`, and to `/home` exactly when it is the signed-in redirect |
| `Middleware.Decide` | mediamorph/middleware.ts:12-35 | the decision never contradicts the identity state (signed-in never to `/signin`, anonymous never to `/home`); a redirect to `/home` comes only from a public page other than `/home`; a redirect to `/signin` only from a route on neither allow-list |
| `Middleware.DecideCombined` | mediamorph/middleware.ts:22-31 | removing the check of lines 28-30 gives the same decision for every pathname and identity state |
| `Middleware.Classify` | mediamorph/middleware.ts:3-11 | a pathname is a public page exactly when the page matcher accepts it, public API exactly when the API matcher accepts it, and never both |
| `MiddlewareProperties.DecideFollowsPolicy` | mediamorph/middleware.ts:12-35 | the gate equals the policy stated by route class: signed-in users leave public pages other than `/home`, anonymous users are kept off protected routes, all else passes |
| `MiddlewareProperties.SignedInRedirectedHome` | mediamorph/middleware.ts:15-20 | a signed-in user is redirected to `/home` exactly from `/`, `/signin` and `/signup` |
| `MiddlewareProperties.SignedInPassesElsewhere` | mediamorph/middleware.ts:18-33 | a signed-in user passes through exactly on `/home` and off the public pages, so on every `/api` route |
| `MiddlewareProperties.AnonymousRedirectedToSignIn` | mediamorph/middleware.ts:22-26 | an anonymous user is redirected to `/signin` exactly from routes on neither allow-list |
| `MiddlewareProperties.AnonymousPasses` | mediamorph/middleware.ts:22-33 | an anonymous user passes through exactly on `/`, `/home`, `/signin`, `/signup` and `/api/videos` |
| `MiddlewareProperties.SecondAnonymousCheckRedundant` | mediamorph/middleware.ts:24-30 | no pathname is both a public page and an API request, so whenever the line-28 condition holds the line-24 condition already held |
| `MiddlewareProperties.NoRedirectLoop` | mediamorph/middleware.ts:15-33 | after a redirect, the gate lets the same caller through at the redirect target |
| `MiddlewareProperties.Follow` | mediamorph/middleware.ts:18-33 | a browser following the gate's redirects follows at most one; after one it stands at that redirect's target, and given room for one it lands on a path the gate lets through |
| `MiddlewareProperties.AnonymousVideoSubPathRedirected` | mediamorph/middleware.ts:9-11 | an anonymous request for `/api/videos/123` is redirected to `/signin` |
| `MiddlewareProperties.AnonymousHyphenatedSignInRedirected` | mediamorph/middleware.ts:3-8 | an anonymous request for `/sign-in`, the landing page's link target, is redirected to `/signin` |
| `MiddlewareProperties.PrefixTestIsLiteral` | mediamorph/middleware.ts:16 | `/apix` is an API request and an anonymous caller there is redirected; anonymous `/api/videos` passes |

## Left out

- `clerkMiddleware` and `auth()` (mediamorph/middleware.ts:1, 12-13): calls into the identity provider. The signed-in state is an input.
- `createRouteMatcher` (mediamorph/middleware.ts:3, 9): its pattern syntax and trailing-slash handling are not visible; the model uses exact matching.
- URL handling (mediamorph/middleware.ts:14, 19, 25, 29): parsing `req.url` into a pathname, and building the redirect URL on the request's origin, belong to the runtime's URL parser. The model works on pathnames only.
- The `config.matcher` patterns (mediamorph/middleware.ts:37-39): they choose which requests reach the gate. That is framework routing, not gate logic.
- The upload endpoint (mediamorph/app/api/image-upload/route.ts): identity lookup, multipart parsing and a streaming upload to the media CDN. It is I/O glue around a 401/400/500 status mapping.
- The video listing (mediamorph/app/api/videos/route.ts): a database query whose newest-first order is done by the database.
- The pages, styling and the video record type (mediamorph/app/page.tsx, mediamorph/tailwind.config.ts, mediamorph/types/index.ts): presentation and a record with no behaviour.
