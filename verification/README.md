# Route guards of a Next.js web app, modelled in Dafny

The web app protects some of its pages with a session check that runs before
routing. The repository holds two versions of that check:

- **`src/middleware.ts`, the request middleware.** Every request first goes
  through the identity provider's hook. A pathname with the raw string prefix
  `/auth` gets that hook's response back unchanged. Any other pathname is
  redirected to `/auth/login?returnTo=<pathname>` exactly when it is one of
  `/profile`, `/protected` or `/admin` and there is no session. Everything
  else passes through. The module is `RouteMiddleware` (`route_middleware.dfy`).
- **`src/lib/auth-middleware.ts`, the public allow-list guard.** `matchPath`
  scans a list of public-route patterns and stops at the first match.
  `runRouteGuards` allows a public path without looking up the session. It
  redirects any other path to the login page when there is no session, and
  allows it when there is one. The module is `AuthMiddleware`
  (`auth_middleware.dfy`).

Shared pieces:

- `Urls` (`urls.dfy`) keeps the login URL as a structured value: the origin
  taken from the base URL, the path, and the ordered query pairs. `Resolve`
  stands for `new URL(path, base)`, `Append` for `searchParams.append`, and
  `Get` for `searchParams.get`. `Get` is the partner that reads `returnTo`
  back out of a redirect.
- `Provider` (`provider.dfy`) names the two provider calls. Each decision
  returns the list of calls it made, so call order is part of what is proved.
- `Wrappers` (`wrappers.dfy`) holds `Option`, the result of the session lookup.

Inputs the code reads from the outside world are parameters:

- the pathname;
- the provider hook's response, of an opaque type `R`;
- what the session lookup returns, as `Option<S>`;
- the `APP_BASE_URL` environment value, as an opaque `base` string.

A public-route regular expression is an opaque predicate `string -> bool`.

The allow-list guard does not keep `/auth/login` reachable by itself.
`AuthMiddleware.LoginPathNeedsPublicPattern` shows that it redirects the
login page to itself exactly when no public pattern accepts that page. With
an empty list, that always happens. Avoiding a loop therefore depends on the
pattern list, or on a caller that hands `/auth` paths to the provider first.
No such caller is among the modelled files.

## Model

| member | source | states |
|---|---|---|
| Urls.GetAppend | src/lib/auth-middleware.ts:38-42 | appending a pair makes `get(key)` return the new value only when the key had no value before; lookups of every other key are unchanged |
| Urls.ResolveAppendGet | src/middleware.ts:18-19 | a URL resolved against the base and given one appended pair keeps the base origin and the path, has exactly that one query pair, and `get(key)` returns the appended value |
| RouteMiddleware.Middleware | src/middleware.ts:8-25 | the call log is exactly one provider hook call, followed by exactly one session lookup when the pathname is outside `/auth` and nothing else otherwise; a delegated response is the hook's own response |
| RouteMiddleware.DelegatesAuthNamespace | src/middleware.ts:9-13 | every pathname with the prefix `/auth` yields the hook's response unchanged, after the hook call alone |
| RouteMiddleware.AuthorsIsDelegated | src/middleware.ts:11-13 | the prefix test is on the raw string, so `/authors` is delegated too |
| RouteMiddleware.LoginPathNeverRedirected | src/middleware.ts:11-13 | `/auth/login` is delegated for every session state, so it is never redirected and cannot loop |
| RouteMiddleware.ProtectedRoutesOutsideAuth | src/middleware.ts:6-13 | none of the protected pathnames starts with `/auth`, so the delegation branch never hides one |
| RouteMiddleware.RedirectIff | src/middleware.ts:6-22 | a request is redirected if and only if its pathname is exactly `/profile`, `/protected` or `/admin` and there is no session |
| RouteMiddleware.ExactMembership | src/middleware.ts:6-24 | `/profile/edit` and `/profile/` pass through even without a session: membership is exact |
| RouteMiddleware.RedirectTarget | src/middleware.ts:17-21 | a redirect targets `/auth/login` on the base URL with the single query pair `returnTo` = original pathname, which `get` reads back |
| RouteMiddleware.PassThroughOtherwise | src/middleware.ts:17-24 | outside `/auth`, every request that is not redirected passes through, including a protected pathname with a session |
| RouteMiddleware.SessionPresenceOnly | src/middleware.ts:15-24 | two sessions that are both present, or both absent, give the same response and call log |
| RouteMiddleware.Scenarios | src/middleware.ts:6-24 | `/` with no session and `/protected` with a session pass through; `/admin` with no session is redirected to the login URL with `returnTo` = `/admin` |
| AuthMiddleware.MatchPath | src/lib/auth-middleware.ts:4-14 | the first-match scan returns true if and only if some pattern accepts the path |
| AuthMiddleware.RunRouteGuards | src/lib/auth-middleware.ts:16-52 | the guard's answer is the allow/redirect decision; no session lookup is made for a public path, and exactly one is made otherwise |
| AuthMiddleware.MatchesAppend | src/lib/auth-middleware.ts:4-14 | a concatenated list matches if and only if either part matches, so appending patterns never turns a match into a non-match |
| AuthMiddleware.MatchesIgnoresOrder | src/lib/auth-middleware.ts:5-11 | two lists holding the same patterns, in any order and with any repetition, match the same paths |
| AuthMiddleware.PublicPathAllowed | src/lib/auth-middleware.ts:29-33 | a path some pattern accepts is allowed whatever the session |
| AuthMiddleware.SessionAllows | src/lib/auth-middleware.ts:35-51 | with a session present, every path is allowed |
| AuthMiddleware.RedirectIff | src/lib/auth-middleware.ts:29-51 | the guard redirects if and only if no pattern accepts the path and there is no session |
| AuthMiddleware.RedirectTarget | src/lib/auth-middleware.ts:26-48 | a redirect targets `/auth/login` on the base URL with the single query pair `returnTo` = pathname, which `get` reads back |
| AuthMiddleware.EmptyListFailsClosed | src/lib/auth-middleware.ts:29-48 | with no public patterns, every path without a session is redirected |
| AuthMiddleware.MorePatternsOnlyAllow | src/lib/auth-middleware.ts:29-33 | adding public patterns can turn a redirect into an allow, never an allow into a redirect |
| AuthMiddleware.LoginPathNeedsPublicPattern | src/lib/auth-middleware.ts:26-48 | without a session, `/auth/login` is redirected to itself if and only if no public pattern accepts it |

## Left out

- src/services/profile.service.ts is not part of this model. It is a one-check wrapper around the session lookup that throws when there is no session.
- src/components/buttons/signup-button.tsx is not part of this model. It is a static link.
- The `config.matcher` path filter (src/middleware.ts:35) is not modelled. The framework evaluates it before the middleware runs.
- The regular-expression engine is not modelled; a pattern is an opaque predicate. A pattern with the global or sticky flag keeps a `lastIndex` between `test` calls; the model treats every pattern as stateless.
- URL parsing and serialisation are not modelled: percent-encoding, and how the base URL's own path is resolved. The base is an opaque origin string, and an unset or invalid `APP_BASE_URL`, which makes `new URL` throw, is not modelled.
- The provider's hook, the session lookup and `await` suspension are not modelled. Their results are inputs, and a lookup that never completes is outside the model.
- `getSession` has no error handling (src/middleware.ts:15, src/lib/auth-middleware.ts:35), so a failing lookup propagates out of the middleware instead of producing a redirect; the model takes the lookup's result as a value and does not model that failure.
- The HTTP responses built by `NextResponse.redirect` and `NextResponse.next` are not modelled beyond the values `Redirect(url)` and `PassThrough`.
