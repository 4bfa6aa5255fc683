/** Variant 1 of the route guard: the request middleware with a fixed set of
    protected pathnames. Every request first goes through the identity
    provider's hook; pathnames under the `/auth` prefix get that hook's
    response back; any other pathname is redirected to the login page exactly
    when it is one of the protected pathnames and there is no session. */
module RouteMiddleware {
  import opened Wrappers
  import opened Provider
  import opened Urls

  /** Pathnames that need a session. Membership is exact string equality. */
  const ProtectedRoutes: set<string> := {"/profile", "/protected", "/admin"}

  /** The namespace whose requests belong to the identity provider. */
  const AuthPrefix := "/auth"
  const LoginPath := "/auth/login"
  const ReturnToKey := "returnTo"

  /** What the middleware hands back: the provider hook's own response
      (of the opaque type `R`), a redirect, or "continue routing". */
  datatype Response<R> = Delegate(resp: R) | Redirect(location: Url) | PassThrough

  /** A response together with the provider calls made to reach it, in order. */
  datatype Handled<R> = Handled(response: Response<R>, calls: seq<Call>)

  /** `s.startsWith(prefix)`: a raw string prefix test. */
  predicate StartsWith(s: string, prefix: string)
  {
    |prefix| <= |s| && s[..|prefix|] == prefix
  }

  /** The login URL that sends the user back to `pathname` after signing in. */
  function LoginRedirect(pathname: string, base: string): (u: Url)
  {
    Append(Resolve(LoginPath, base), ReturnToKey, pathname)
  }

  /** The middleware for one request. `authResponse` is what the provider's
      hook returned for it, `session` what the session lookup returns, and
      `base` the configured application base URL. */
  function Middleware<R, S>(pathname: string, base: string, authResponse: R, session: Option<S>): (out: Handled<R>)
    ensures out.calls == [ProviderMiddleware] + (if StartsWith(pathname, AuthPrefix) then [] else [GetSession])
    ensures out.response.Delegate? ==> out.response.resp == authResponse
  {
    if StartsWith(pathname, AuthPrefix) then
      Handled(Delegate(authResponse), [ProviderMiddleware])
    else
      var calls := [ProviderMiddleware, GetSession];
      if pathname in ProtectedRoutes && session.None? then
        Handled(Redirect(LoginRedirect(pathname, base)), calls)
      else
        Handled(PassThrough, calls)
  }

  /** Every pathname with the raw prefix `/auth` gets the provider hook's
      response unchanged, and no session lookup is made for it. */
  lemma DelegatesAuthNamespace<R, S>(pathname: string, base: string, authResponse: R, session: Option<S>)
    requires StartsWith(pathname, AuthPrefix)
    ensures Middleware(pathname, base, authResponse, session) == Handled(Delegate(authResponse), [ProviderMiddleware])
  {
  }

  /** The prefix test is on the raw string, so `/authors` is delegated too. */
  lemma AuthorsIsDelegated<R, S>(base: string, authResponse: R, session: Option<S>)
    ensures Middleware("/authors", base, authResponse, session).response == Delegate(authResponse)
  {
  }

  /** The login page is never redirected, whatever the session: no redirect loop. */
  lemma LoginPathNeverRedirected<R, S>(base: string, authResponse: R, session: Option<S>)
    ensures Middleware(LoginPath, base, authResponse, session).response == Delegate(authResponse)
  {
  }

  /** None of the protected pathnames lies in the provider's namespace. */
  lemma ProtectedRoutesOutsideAuth(pathname: string)
    requires pathname in ProtectedRoutes
    ensures !StartsWith(pathname, AuthPrefix)
  {
    if pathname == "/profile" {
      assert pathname[2] != AuthPrefix[2];
    } else if pathname == "/protected" {
      assert pathname[2] != AuthPrefix[2];
    } else {
      assert pathname[2] != AuthPrefix[2];
    }
  }

  /** A request is redirected exactly when its pathname is one of the three
      protected pathnames and there is no session. */
  lemma RedirectIff<R, S>(pathname: string, base: string, authResponse: R, session: Option<S>)
    ensures Middleware(pathname, base, authResponse, session).response.Redirect? <==>
      (pathname == "/profile" || pathname == "/protected" || pathname == "/admin") && session.None?
  {
    if pathname in ProtectedRoutes {
      ProtectedRoutesOutsideAuth(pathname);
    }
  }

  /** Membership is exact: a pathname below or beside a protected one is not
      redirected, even with no session. */
  lemma ExactMembership<R, S>(base: string, authResponse: R)
    ensures Middleware("/profile/edit", base, authResponse, Option<S>.None).response == PassThrough
    ensures Middleware("/profile/", base, authResponse, Option<S>.None).response == PassThrough
  {
    assert "/profile/edit"[1] != AuthPrefix[1];
    assert "/profile/"[1] != AuthPrefix[1];
  }

  /** A redirect goes to `/auth/login` on the configured base, with exactly one
      query pair, `returnTo`, whose value is the original pathname. */
  lemma RedirectTarget<R, S>(pathname: string, base: string, authResponse: R, session: Option<S>)
    requires Middleware(pathname, base, authResponse, session).response.Redirect?
    ensures Middleware(pathname, base, authResponse, session).response.location.origin == base
    ensures Middleware(pathname, base, authResponse, session).response.location.path == "/auth/login"
    ensures Middleware(pathname, base, authResponse, session).response.location.query == [("returnTo", pathname)]
    ensures Get(Middleware(pathname, base, authResponse, session).response.location.query, "returnTo") == Some(pathname)
  {
  }

  /** Outside `/auth`, a request that is not redirected passes through,
      including a protected pathname when a session exists. */
  lemma PassThroughOtherwise<R, S>(pathname: string, base: string, authResponse: R, session: Option<S>)
    requires !StartsWith(pathname, AuthPrefix)
    ensures Middleware(pathname, base, authResponse, session).response.Redirect? ||
            Middleware(pathname, base, authResponse, session).response == PassThrough
    ensures session.Some? ==> Middleware(pathname, base, authResponse, session).response == PassThrough
  {
  }

  /** The decision depends on whether a session exists, not on what it holds:
      there is no other state. */
  lemma SessionPresenceOnly<R, S>(pathname: string, base: string, authResponse: R, s1: Option<S>, s2: Option<S>)
    requires s1.Some? <==> s2.Some?
    ensures Middleware(pathname, base, authResponse, s1) == Middleware(pathname, base, authResponse, s2)
  {
  }

  /** Worked requests: `/` and a signed-in `/protected` pass through; `/admin`
      with no session is sent to the login page with `returnTo` = `/admin`. */
  lemma Scenarios<R, S>(authResponse: R, s: S)
    ensures Middleware("/", "https://app.example.com", authResponse, Option<S>.None).response == PassThrough
    ensures Middleware("/protected", "https://app.example.com", authResponse, Some(s)).response == PassThrough
    ensures Middleware("/admin", "https://app.example.com", authResponse, Option<S>.None).response ==
      Redirect(Url("https://app.example.com", "/auth/login", [("returnTo", "/admin")]))
  {
    ProtectedRoutesOutsideAuth("/protected");
    ProtectedRoutesOutsideAuth("/admin");
  }
}
