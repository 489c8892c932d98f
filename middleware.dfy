/**
 * The edge middleware in front of the operator area. It only looks for a
 * session cookie; whether the cookie holds a valid session is decided later,
 * by the session check in the auth configuration and by the operator guard.
 */
module Middleware {
  import opened Wrappers
  import opened Text

  /** The sign-in pages are reachable without a session. */
  predicate IsSignInPage(pathname: string) {
    StartsWith(pathname, "/admin/signin") || StartsWith(pathname, "/admin/login")
  }

  /**
   * A path the middleware and the auth configuration guard: it starts with
   * "/admin" and is not a sign-in page. The test is a plain prefix test, so
   * "/administrator" is guarded too.
   */
  predicate IsGuarded(pathname: string) {
    StartsWith(pathname, "/admin") && !IsSignInPage(pathname)
  }

  /** The matcher `/admin/:path*`: the operator area itself or anything under it. */
  predicate Matches(pathname: string) {
    pathname == "/admin" || StartsWith(pathname, "/admin/")
  }

  /** The cookie names a session may be stored under, in the order they are tried. */
  const SessionCookieNames: seq<string> :=
    ["authjs.session-token", "__Secure-authjs.session-token",
     "next-auth.session-token", "__Secure-next-auth.session-token"]

  /** The cookie `name` is present with a non-empty value. */
  predicate IsSet(cookies: map<string, string>, name: string) {
    name in cookies && cookies[name] != []
  }

  /** `get(name)?.value || …`: the first of `names` whose cookie is set to a non-empty value. */
  function FirstSetCookie(cookies: map<string, string>, names: seq<string>): (r: Option<string>)
    ensures r.Some? ==> r.value != []
    ensures r.Some? <==> exists i :: 0 <= i < |names| && IsSet(cookies, names[i])
    ensures r.Some? ==> exists i :: 0 <= i < |names| && IsSet(cookies, names[i]) && r.value == cookies[names[i]]
                                    && forall j :: 0 <= j < i ==> !IsSet(cookies, names[j])
  {
    if names == [] then None
    else if IsSet(cookies, names[0]) then Some(cookies[names[0]])
    else
      var rest := FirstSetCookie(cookies, names[1..]);
      assert forall i :: 1 <= i < |names| ==> names[i] == names[1..][i - 1];
      if rest.Some? then
        var k :| 0 <= k < |names[1..]| && IsSet(cookies, names[1..][k]) && rest.value == cookies[names[1..][k]]
                 && forall j :: 0 <= j < k ==> !IsSet(cookies, names[1..][j]);
        assert forall j :: 0 <= j < k + 1 ==> !IsSet(cookies, names[j]) by {
          forall j | 0 <= j < k + 1 ensures !IsSet(cookies, names[j]) {
            if j > 0 { assert names[j] == names[1..][j - 1]; }
          }
        }
        rest
      else rest
  }

  /** The session token the request carries, if any. */
  function SessionToken(cookies: map<string, string>): Option<string> {
    FirstSetCookie(cookies, SessionCookieNames)
  }

  /** What the middleware does with a request: let it through, or send it to sign in. */
  datatype Decision = Next | Redirect(location: string, callbackUrl: string)

  /** The middleware: a guarded path without a session cookie goes to the sign-in page. */
  function Decide(pathname: string, cookies: map<string, string>): (d: Decision)
    ensures d.Redirect? ==> d.location == "/admin/signin" && d.callbackUrl == pathname
  {
    if IsSignInPage(pathname) then Next
    else if StartsWith(pathname, "/admin") && SessionToken(cookies).None? then
      Redirect("/admin/signin", pathname)
    else Next
  }

  /** The middleware redirects exactly the guarded paths that carry no non-empty session cookie. */
  lemma RedirectsIff(pathname: string, cookies: map<string, string>)
    ensures Decide(pathname, cookies).Redirect? <==>
      IsGuarded(pathname)
      && forall i :: 0 <= i < |SessionCookieNames| ==>
           SessionCookieNames[i] !in cookies || cookies[SessionCookieNames[i]] == []
  {
  }

  /** Any one of the four cookies, set to a non-empty value, is enough to pass. */
  lemma AnySessionCookiePasses(pathname: string, cookies: map<string, string>, name: string)
    requires name in SessionCookieNames && name in cookies && cookies[name] != []
    ensures Decide(pathname, cookies) == Next
  {
    var i :| 0 <= i < |SessionCookieNames| && SessionCookieNames[i] == name;
  }

  /** The redirect target is itself let through, so the redirect never loops. */
  lemma SignInPageNeverRedirects(cookies: map<string, string>, pathname: string)
    requires Decide(pathname, cookies).Redirect?
    ensures Decide(Decide(pathname, cookies).location, cookies) == Next
  {
    assert StartsWith("/admin/signin", "/admin/signin");
  }

  /** What a request meets: the middleware runs only on the paths its matcher selects. */
  function Handle(pathname: string, cookies: map<string, string>): (d: Decision)
    ensures d.Redirect? ==> Matches(pathname) && d == Decide(pathname, cookies)
    ensures !Matches(pathname) ==> d == Next
  {
    if Matches(pathname) then Decide(pathname, cookies) else Next
  }

  /**
   * A request is sent to sign in exactly when it is for the operator area,
   * is not a sign-in page and carries no session cookie.
   */
  lemma HandleRedirectsIff(pathname: string, cookies: map<string, string>)
    ensures Handle(pathname, cookies).Redirect? <==>
      Matches(pathname) && !IsSignInPage(pathname) && SessionToken(cookies).None?
  {
    if Matches(pathname) && pathname != "/admin" {
      assert pathname[..|"/admin"|] == pathname[..|"/admin/"|][..|"/admin"|];
    }
  }

  /**
   * The matcher leaves paths such as "/administrator" to pass although the
   * prefix test guards them: only the operator area is gated at the edge.
   */
  lemma MatcherNarrowsGuard(cookies: map<string, string>)
    requires SessionToken(cookies).None?
    ensures Decide("/administrator", cookies).Redirect?
    ensures Handle("/administrator", cookies) == Next
  {
    assert StartsWith("/administrator", "/admin");
    assert "/administrator"[6] != "/admin/"[6];
  }
}
