/** The request guard of `middleware.ts`: a redirect decision taken from the
    presence of the session cookie and the requested pathname, applied only to
    the paths its matcher selects. */
module RouteGuard {
  import opened Text

  /** Name of the cookie whose presence marks a logged-in user. */
  const SESSION_COOKIE := "usuario_session"
  /** The login page. */
  const LOGIN_PATH := "/"
  /** The protected area and its prefix. */
  const DASHBOARD_PATH := "/dashboard"

  /** What the guard answers: send the browser to `target`, or let the request through. */
  datatype Decision = Redirect(target: string) | Next

  /** Only the cookie's presence counts, never its value. */
  predicate HasSession(cookies: map<string, string>) {
    SESSION_COOKIE in cookies
  }

  /** The guard's decision for one request. */
  function Middleware(cookies: map<string, string>, pathname: string): (d: Decision)
    ensures d.Redirect? ==> d.target == LOGIN_PATH || d.target == DASHBOARD_PATH
    ensures d.Redirect? ==> d.target != pathname
  {
    if !HasSession(cookies) && StartsWith(pathname, DASHBOARD_PATH) then
      Redirect(LOGIN_PATH)
    else if HasSession(cookies) && pathname == LOGIN_PATH then
      Redirect(DASHBOARD_PATH)
    else
      Next
  }

  /** The text after the leading `/` starts with one of the excluded names.
      In `favicon.ico` the dot is a pattern character and matches any character. */
  predicate ExcludedTail(tail: string) {
    || StartsWith(tail, "api")
    || StartsWith(tail, "_next/static")
    || StartsWith(tail, "_next/image")
    || (|tail| >= 11 && tail[..7] == "favicon" && tail[8..11] == "ico")
  }

  /** The matcher `/((?!api|_next/static|_next/image|favicon.ico).*)`, anchored at both ends. */
  predicate Matched(pathname: string) {
    |pathname| >= 1 && pathname[0] == '/' && !ExcludedTail(pathname[1..])
  }

  /** A request as the framework handles it: the guard runs only on matched paths. */
  function Route(cookies: map<string, string>, pathname: string): (d: Decision)
    ensures !Matched(pathname) ==> d == Next
    ensures Matched(pathname) ==> d == Middleware(cookies, pathname)
  {
    if Matched(pathname) then Middleware(cookies, pathname) else Next
  }

  /** The three cases of the guard, each in both directions. */
  lemma MiddlewareCases(cookies: map<string, string>, pathname: string)
    ensures Middleware(cookies, pathname) == Redirect(LOGIN_PATH)
            <==> !HasSession(cookies) && StartsWith(pathname, DASHBOARD_PATH)
    ensures Middleware(cookies, pathname) == Redirect(DASHBOARD_PATH)
            <==> HasSession(cookies) && pathname == LOGIN_PATH
    ensures Middleware(cookies, pathname) == Next
            <==> !(!HasSession(cookies) && StartsWith(pathname, DASHBOARD_PATH))
                 && !(HasSession(cookies) && pathname == LOGIN_PATH)
  {
  }

  /** The prefix test is a plain `startsWith`: `/dashboardX` is guarded as well. */
  lemma PlainPrefixIsGuarded()
    ensures Route(map[], "/dashboardX") == Redirect(LOGIN_PATH)
    ensures Route(map[], "/dashboard/usuarios") == Redirect(LOGIN_PATH)
  {
    assert StartsWith("/dashboardX", DASHBOARD_PATH);
    assert StartsWith("/dashboard/usuarios", DASHBOARD_PATH);
    ProtectedPathsAreMatched("/dashboardX");
    ProtectedPathsAreMatched("/dashboard/usuarios");
  }

  /** Two cookie jars that agree on whether the session cookie is present get the same answer. */
  lemma OnlyPresenceMatters(c1: map<string, string>, c2: map<string, string>, pathname: string)
    requires HasSession(c1) == HasSession(c2)
    ensures Route(c1, pathname) == Route(c2, pathname)
  {
  }

  /** Every protected path reaches the guard: the matcher never excludes it. */
  lemma {:induction false} ProtectedPathsAreMatched(pathname: string)
    requires StartsWith(pathname, DASHBOARD_PATH)
    ensures Matched(pathname)
  {
    var tail := pathname[1..];
    assert tail[0] == 'd' by {
      assert pathname[1] == DASHBOARD_PATH[1];
    }
    assert !StartsWith(tail, "api") && !StartsWith(tail, "_next/static") && !StartsWith(tail, "_next/image") by {
      assert "api"[0] == 'a' && "_next/static"[0] == '_' && "_next/image"[0] == '_';
    }
    assert !(|tail| >= 11 && tail[..7] == "favicon") by {
      assert "favicon"[0] == 'f';
    }
  }

  /** The login page reaches the guard. */
  lemma LoginPathIsMatched()
    ensures Matched(LOGIN_PATH)
  {
  }

  /** No redirect loop: following a redirect with the same cookies lets the request through. */
  lemma NoRedirectLoop(cookies: map<string, string>, pathname: string)
    ensures Route(cookies, pathname).Redirect? ==> Route(cookies, Route(cookies, pathname).target) == Next
  {
  }

  /** The guard never redirects a request to the path it asked for. */
  lemma NeverRedirectsToItself(cookies: map<string, string>, pathname: string)
    ensures Route(cookies, pathname) != Redirect(pathname)
  {
  }

  /** Paths the matcher leaves out are never redirected, whatever the cookies. */
  lemma ExcludedPathsPass(cookies: map<string, string>)
    ensures Route(cookies, "/api/visitas") == Next
    ensures Route(cookies, "/_next/static/chunk.js") == Next
    ensures Route(cookies, "/_next/image") == Next
    ensures Route(cookies, "/favicon.ico") == Next
    ensures Route(cookies, "/favicon-ico") == Next
    ensures Route(cookies, "/apiary") == Next
  {
    assert "/api/visitas"[1..][..3] == "api";
    assert "/_next/static/chunk.js"[1..][..12] == "_next/static";
    assert "/_next/image"[1..][..11] == "_next/image";
    assert "/favicon.ico"[1..][..7] == "favicon" && "/favicon.ico"[1..][8..11] == "ico";
    assert "/favicon-ico"[1..][..7] == "favicon" && "/favicon-ico"[1..][8..11] == "ico";
    assert "/apiary"[1..][..3] == "api";
  }
}
