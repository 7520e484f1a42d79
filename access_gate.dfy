/**
 * The site-wide access gate: every request must come from an authenticated
 * superuser, except a small allowlist of path prefixes and the login and logout
 * pages themselves. The URLs of the login and logout pages are resolved by the
 * framework's router, so they are parameters here.
 */
module AccessGate {

  /** The request fields the gate looks at. */
  datatype Request = Request(path: string, isAuthenticated: bool, isSuperuser: bool)

  /** What the gate does with a request: hand it on, send it to log in, or refuse it. */
  datatype Outcome = Pass | Redirect(location: string) | Forbidden(message: string)

  const ForbiddenMessage := "Superuser required."
  const NextParam := "?next="

  /** Paths starting with any of these pass without any check (static files, live reload, admin login assets). */
  const OpenPrefixes: seq<string> := ["/static/", "/__reload__/", "/favicon.ico", "/admin/login", "/admin/js"]

  /** Whether `path` starts with one of `prefixes`. */
  function StartsWithAny(prefixes: seq<string>, path: string): (r: bool)
    ensures r <==> exists i :: 0 <= i < |prefixes| && prefixes[i] <= path
  {
    if |prefixes| == 0 then false
    else prefixes[0] <= path || StartsWithAny(prefixes[1..], path)
  }

  /** The gate as configured at start-up: the set of exactly-matched exempt paths and the login URL. */
  datatype Middleware = Middleware(exemptPaths: set<string>, loginUrl: string)

  /** Start-up configuration: the login and logout pages are exempt. */
  function NewMiddleware(loginUrl: string, logoutUrl: string): (m: Middleware)
    ensures forall p :: p in m.exemptPaths <==> p == loginUrl || p == logoutUrl
    ensures m.loginUrl == loginUrl
  {
    Middleware({loginUrl, logoutUrl}, loginUrl)
  }

  /** Where an anonymous request is sent: the login page, carrying the path verbatim. */
  function LoginRedirect(loginUrl: string, path: string): (location: string)
    ensures loginUrl <= location
    ensures location[|loginUrl|..] == NextParam + path
  {
    loginUrl + NextParam + path
  }

  /** The request handling of the gate, in the order it checks. */
  function Call(m: Middleware, req: Request): (r: Outcome)
    ensures StartsWithAny(OpenPrefixes, req.path) || req.path in m.exemptPaths ==> r == Pass
    ensures req.isAuthenticated && req.isSuperuser ==> r == Pass
    ensures r.Redirect? ==> !req.isAuthenticated && r.location == LoginRedirect(m.loginUrl, req.path)
    ensures r.Forbidden? ==> req.isAuthenticated && !req.isSuperuser && r.message == ForbiddenMessage
  {
    if StartsWithAny(OpenPrefixes, req.path) then Pass
    else if req.path in m.exemptPaths then Pass
    else if !req.isAuthenticated then Redirect(LoginRedirect(m.loginUrl, req.path))
    else if !req.isSuperuser then Forbidden(ForbiddenMessage)
    else Pass
  }

  /** Whether the path is let through whoever asks. */
  predicate Exempt(m: Middleware, path: string) {
    path in m.exemptPaths || exists i :: 0 <= i < |OpenPrefixes| && OpenPrefixes[i] <= path
  }

  /** The full decision table: each request gets exactly the outcome its row names. */
  lemma {:induction false} DecisionTable(m: Middleware, req: Request)
    ensures Call(m, req) == Pass <==> Exempt(m, req.path) || (req.isAuthenticated && req.isSuperuser)
    ensures Call(m, req).Redirect? <==> !Exempt(m, req.path) && !req.isAuthenticated
    ensures Call(m, req).Forbidden? <==> !Exempt(m, req.path) && req.isAuthenticated && !req.isSuperuser
    ensures Call(m, req).Redirect? ==> Call(m, req).location == m.loginUrl + "?next=" + req.path
    ensures Call(m, req).Forbidden? ==> Call(m, req).message == "Superuser required."
  {
    var open := StartsWithAny(OpenPrefixes, req.path);
    assert open <==> exists i :: 0 <= i < |OpenPrefixes| && OpenPrefixes[i] <= req.path;
  }

  /** A path under an open prefix passes whatever the user; the test is by prefix, not by segment. */
  lemma {:induction false} OpenPrefixPasses(m: Middleware, req: Request, i: nat, rest: string)
    requires i < |OpenPrefixes| && req.path == OpenPrefixes[i] + rest
    ensures Call(m, req) == Pass
  {
    assert OpenPrefixes[i] <= req.path;
  }

  /** For instance `/admin/loginX`, which merely shares the prefix `/admin/login`, passes unauthenticated. */
  lemma AdminLoginLookalikePasses(m: Middleware)
    ensures Call(m, Request("/admin/loginX", false, false)) == Pass
  {
    OpenPrefixPasses(m, Request("/admin/loginX", false, false), 3, "X");
  }

  /** The login and logout pages pass whatever the user. */
  lemma {:induction false} LoginAndLogoutPass(loginUrl: string, logoutUrl: string, authenticated: bool, superuser: bool)
    ensures Call(NewMiddleware(loginUrl, logoutUrl), Request(loginUrl, authenticated, superuser)) == Pass
    ensures Call(NewMiddleware(loginUrl, logoutUrl), Request(logoutUrl, authenticated, superuser)) == Pass
  {
  }

  /**
   * The login and logout pages are matched exactly: a longer path that merely
   * starts with one of them, outside the open prefixes, still needs a superuser.
   */
  lemma {:induction false} ExemptionIsExact(loginUrl: string, logoutUrl: string, req: Request)
    requires req.path != loginUrl && req.path != logoutUrl
    requires forall i :: 0 <= i < |OpenPrefixes| ==> !(OpenPrefixes[i] <= req.path)
    ensures !req.isAuthenticated ==>
      Call(NewMiddleware(loginUrl, logoutUrl), req) == Redirect(loginUrl + "?next=" + req.path)
    ensures req.isAuthenticated && !req.isSuperuser ==>
      Call(NewMiddleware(loginUrl, logoutUrl), req) == Forbidden("Superuser required.")
  {
    assert !StartsWithAny(OpenPrefixes, req.path);
  }

  /** An authenticated superuser always passes. */
  lemma {:induction false} SuperuserPasses(m: Middleware, req: Request)
    requires req.isAuthenticated && req.isSuperuser
    ensures Call(m, req) == Pass
  {
  }

  /** The path after `?next=` in a redirect is the requested path, unchanged. */
  lemma {:induction false} RedirectKeepsPath(m: Middleware, req: Request)
    requires Call(m, req).Redirect?
    ensures Call(m, req).location[|m.loginUrl| + |NextParam|..] == req.path
  {
    var loc := LoginRedirect(m.loginUrl, req.path);
    assert loc[|m.loginUrl|..] == NextParam + req.path;
    assert loc[|m.loginUrl| + |NextParam|..] == loc[|m.loginUrl|..][|NextParam|..];
  }
}
