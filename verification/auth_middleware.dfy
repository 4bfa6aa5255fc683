/** Variant 2 of the route guard: a list of public-route patterns. A path that
    some pattern accepts is allowed without asking for a session; any other
    path needs a session and, without one, is redirected to the login page
    carrying the path as `returnTo`. An empty list makes every path need a
    session (fail closed). */
module AuthMiddleware {
  import opened Wrappers
  import opened Provider
  import opened Urls

  const LoginPath := "/auth/login"
  const ReturnToQueryParamKey := "returnTo"

  /** A public-route pattern; the regular-expression engine behind it is
      opaque, so a pattern is just the set of paths it accepts. */
  type Pattern = string -> bool

  /** The guard's answer: `Allow` is the `null` the guard returns, `Redirect`
      the record holding the login URL. */
  datatype GuardOutcome = Allow | Redirect(loginUrl: Url)

  /** Some pattern in the list accepts `path`. */
  predicate Matches(path: string, patterns: seq<Pattern>)
  {
    exists i :: 0 <= i < |patterns| && patterns[i](path)
  }

  /** `matchPath`: scans the patterns in order and stops at the first one that
      accepts `path`. */
  method MatchPath(path: string, patterns: seq<Pattern>) returns (matched: bool)
    ensures matched <==> Matches(path, patterns)
  {
    for i := 0 to |patterns|
      invariant forall k :: 0 <= k < i ==> !patterns[k](path)
    {
      if patterns[i](path) {
        return true;
      }
    }
    return false;
  }

  /** What the guard decides for `pathname`, given what the session lookup
      would return and the configured base URL. */
  function GuardDecision<S>(pathname: string, patterns: seq<Pattern>, base: string, session: Option<S>): (d: GuardOutcome)
  {
    if Matches(pathname, patterns) then Allow
    else if session.None? then
      Redirect(Append(Resolve(LoginPath, base), ReturnToQueryParamKey, pathname))
    else Allow
  }

  /** `runRouteGuards`: the decision, together with the provider calls made
      on the way. The session lookup is made only for a non-public path. */
  method RunRouteGuards<S>(pathname: string, patterns: seq<Pattern>, base: string, session: Option<S>)
    returns (outcome: GuardOutcome, calls: seq<Call>)
    ensures outcome == GuardDecision(pathname, patterns, base, session)
    ensures calls == if Matches(pathname, patterns) then [] else [GetSession]
  {
    var isMatch := MatchPath(pathname, patterns);
    if isMatch {
      return Allow, [];
    }
    calls := [GetSession];
    if session.None? {
      var loginUrl := Resolve(LoginPath, base);
      loginUrl := Append(loginUrl, ReturnToQueryParamKey, pathname);
      return Redirect(loginUrl), calls;
    }
    return Allow, calls;
  }

  /** Matching a concatenation of lists is matching either part: appending
      patterns can turn a non-match into a match, never the reverse. */
  lemma MatchesAppend(path: string, p: seq<Pattern>, q: seq<Pattern>)
    ensures Matches(path, p + q) <==> Matches(path, p) || Matches(path, q)
  {
    if Matches(path, p + q) {
      var i :| 0 <= i < |p + q| && (p + q)[i](path);
      if i >= |p| {
        assert q[i - |p|](path);
      }
    }
    if Matches(path, q) {
      var j :| 0 <= j < |q| && q[j](path);
      assert (p + q)[|p| + j] == q[j];
    }
    if Matches(path, p) {
      var i :| 0 <= i < |p| && p[i](path);
      assert (p + q)[i] == p[i];
    }
  }

  /** The order of the patterns (and repeated patterns) does not matter: two
      lists holding the same patterns match the same paths. */
  lemma MatchesIgnoresOrder(path: string, p: seq<Pattern>, q: seq<Pattern>)
    requires forall i :: 0 <= i < |p| ==> exists j :: 0 <= j < |q| && q[j] == p[i]
    requires forall j :: 0 <= j < |q| ==> exists i :: 0 <= i < |p| && p[i] == q[j]
    ensures Matches(path, p) <==> Matches(path, q)
  {
  }

  /** A public path is allowed whatever the session. */
  lemma PublicPathAllowed<S>(pathname: string, patterns: seq<Pattern>, base: string, session: Option<S>)
    requires Matches(pathname, patterns)
    ensures GuardDecision(pathname, patterns, base, session) == Allow
  {
  }

  /** A non-public path is allowed when a session exists. */
  lemma SessionAllows<S>(pathname: string, patterns: seq<Pattern>, base: string, s: S)
    ensures GuardDecision(pathname, patterns, base, Some(s)) == Allow
  {
  }

  /** The guard redirects exactly when no pattern accepts the path and there
      is no session. */
  lemma RedirectIff<S>(pathname: string, patterns: seq<Pattern>, base: string, session: Option<S>)
    ensures GuardDecision(pathname, patterns, base, session).Redirect? <==>
      (forall i :: 0 <= i < |patterns| ==> !patterns[i](pathname)) && session.None?
  {
  }

  /** A redirect goes to `/auth/login` on the configured base, with exactly
      one query pair, `returnTo`, whose value is the requested path. */
  lemma RedirectTarget<S>(pathname: string, patterns: seq<Pattern>, base: string, session: Option<S>)
    requires GuardDecision(pathname, patterns, base, session).Redirect?
    ensures GuardDecision(pathname, patterns, base, session).loginUrl.origin == base
    ensures GuardDecision(pathname, patterns, base, session).loginUrl.path == "/auth/login"
    ensures GuardDecision(pathname, patterns, base, session).loginUrl.query == [("returnTo", pathname)]
    ensures Get(GuardDecision(pathname, patterns, base, session).loginUrl.query, "returnTo") == Some(pathname)
  {
  }

  /** Fail closed: with no public patterns, every path without a session is
      redirected. */
  lemma EmptyListFailsClosed<S>(pathname: string, base: string)
    ensures GuardDecision(pathname, [], base, Option<S>.None).Redirect?
  {
  }

  /** Adding public patterns can only turn a redirect into an allow. */
  lemma MorePatternsOnlyAllow<S>(pathname: string, p: seq<Pattern>, q: seq<Pattern>, base: string, session: Option<S>)
    requires GuardDecision(pathname, p, base, session) == Allow
    ensures GuardDecision(pathname, p + q, base, session) == Allow
  {
    MatchesAppend(pathname, p, q);
  }

  /** The guard alone does not keep the login page reachable: it redirects
      `/auth/login` to itself, for a visitor with no session, exactly when no
      public pattern accepts it. */
  lemma LoginPathNeedsPublicPattern<S>(patterns: seq<Pattern>, base: string)
    ensures GuardDecision(LoginPath, patterns, base, Option<S>.None).Redirect? <==> !Matches(LoginPath, patterns)
  {
  }
}
