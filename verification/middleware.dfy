/** The route guard that runs in front of the web pages: it picks the session
    token out of the cookies, decides whether the path needs a signed-in
    user, and either redirects or lets the request through. */
module Middleware {
  import opened Wrappers
  import opened JsText

  /** Cookie names tried in order: current and legacy naming, secure prefix first. */
  const SessionCookieNames: seq<string> := [
    "__Secure-authjs.session-token",
    "authjs.session-token",
    "__Secure-next-auth.session-token",
    "next-auth.session-token"
  ]

  const AuthProtectedPaths: seq<string> := ["/dashboard", "/profile"]

  const SignInPath: string := "/sign-in"
  const DashboardPath: string := "/dashboard"

  /** Cookie names mapped to their values; a name absent from the map has no cookie. */
  type Cookies = map<string, string>

  datatype Decision =
    | RedirectToSignIn(callbackUrl: string)  // to /sign-in?callbackUrl=<pathname>
    | RedirectToDashboard
    | Next

  /** `cookies.get(a)?.value ?? cookies.get(b)?.value ?? ... ?? null`: the
      value of the first cookie present, even if that value is empty. */
  function FirstPresent(cookies: Cookies, names: seq<string>): (r: Option<string>)
    ensures r.None? <==> forall i :: 0 <= i < |names| ==> names[i] !in cookies
    ensures r.Some? ==> exists i :: 0 <= i < |names| && names[i] in cookies && r.value == cookies[names[i]]
                                    && forall j :: 0 <= j < i ==> names[j] !in cookies
  {
    if names == [] then None
    else if names[0] in cookies then Some(cookies[names[0]])
    else
      var r := FirstPresent(cookies, names[1..]);
      assert forall i :: 1 <= i < |names| ==> names[i] == names[1..][i - 1];
      r
  }

  function SessionToken(cookies: Cookies): Option<string> {
    FirstPresent(cookies, SessionCookieNames)
  }

  /** JavaScript truthiness of the token: present and not the empty string. */
  predicate HasSession(cookies: Cookies) {
    var token := SessionToken(cookies);
    token.Some? && token.value != ""
  }

  /** `AUTH_PROTECTED_PATHS.some(path => pathname === path || pathname.startsWith(path + "/"))` */
  function MatchesAny(pathname: string, paths: seq<string>): (r: bool)
    ensures r <==> exists i :: 0 <= i < |paths| && (pathname == paths[i] || StartsWith(pathname, paths[i] + "/"))
  {
    if paths == [] then false
    else
      var rest := MatchesAny(pathname, paths[1..]);
      assert forall i :: 1 <= i < |paths| ==> paths[i] == paths[1..][i - 1];
      pathname == paths[0] || StartsWith(pathname, paths[0] + "/") || rest
  }

  predicate RequiresAuth(pathname: string) {
    MatchesAny(pathname, AuthProtectedPaths)
  }

  /** `middleware(request)` */
  function Decide(cookies: Cookies, pathname: string): Decision {
    if RequiresAuth(pathname) && !HasSession(cookies) then RedirectToSignIn(pathname)
    else if pathname == SignInPath && HasSession(cookies) then RedirectToDashboard
    else Next
  }

  /** The token is the value of the first of the four cookie names present,
      in the listed order; there is none only if all four are absent. */
  lemma SessionTokenPrecedence(cookies: Cookies, i: nat)
    requires i < |SessionCookieNames| && SessionCookieNames[i] in cookies
    requires forall j :: 0 <= j < i ==> SessionCookieNames[j] !in cookies
    ensures SessionToken(cookies) == Some(cookies[SessionCookieNames[i]])
  {
    var k :| 0 <= k < |SessionCookieNames| && SessionCookieNames[k] in cookies
             && SessionToken(cookies).value == cookies[SessionCookieNames[k]]
             && forall j :: 0 <= j < k ==> SessionCookieNames[j] !in cookies;
    assert k == i;
  }

  /** An empty cookie earlier in the list hides every later one: `??` only
      skips absent values, and the empty token then counts as no session. */
  lemma EmptyCookieShadows(cookies: Cookies)
    requires "__Secure-authjs.session-token" in cookies && cookies["__Secure-authjs.session-token"] == ""
    ensures !HasSession(cookies)
    ensures Decide(cookies, "/dashboard") == RedirectToSignIn("/dashboard")
  {
    assert MatchesAny("/dashboard", AuthProtectedPaths);
  }

  /** A path needs a session exactly when it is /dashboard or /profile or
      lies below one of them; a mere prefix such as /dashboardx does not. */
  lemma RequiresAuthExactly(pathname: string)
    ensures RequiresAuth(pathname) <==>
      || pathname == "/dashboard" || StartsWith(pathname, "/dashboard/")
      || pathname == "/profile" || StartsWith(pathname, "/profile/")
    ensures !RequiresAuth("/dashboardx") && !RequiresAuth("/sign-in") && !RequiresAuth("/")
    ensures RequiresAuth("/profile/settings")
  {
    ProtectedPathsUnfold(pathname);
    ProtectedPathsUnfold("/dashboardx");
    ProtectedPathsUnfold("/sign-in");
    ProtectedPathsUnfold("/");
    ProtectedPathsUnfold("/profile/settings");
    assert "/sign-in"[1] != "/profile"[1];
    assert !StartsWith("/dashboardx", "/profile/") by {
      assert "/dashboardx"[1] != "/profile/"[1];
    }
    assert !StartsWith("/dashboardx", "/dashboard/") by {
      assert "/dashboardx"[10] != "/dashboard/"[10];
    }
    assert StartsWith("/profile/settings", "/profile/") by {
      assert "/profile/settings"[..9] == "/profile/";
    }
  }

  lemma ProtectedPathsUnfold(pathname: string)
    ensures RequiresAuth(pathname) ==
      (|| pathname == "/dashboard" || StartsWith(pathname, "/dashboard/")
       || pathname == "/profile" || StartsWith(pathname, "/profile/"))
  {
    var paths := AuthProtectedPaths;
    assert paths[0] + "/" == "/dashboard/";
    assert paths[1..] == ["/profile"];
    assert paths[1..][0] + "/" == "/profile/";
    assert paths[1..][1..] == [];
  }

  /** The guard: a protected path without a session redirects to sign-in and
      carries the path back as callbackUrl; a protected path is let through
      only with a session. */
  lemma GuardSendsAnonymousToSignIn(cookies: Cookies, pathname: string)
    ensures RequiresAuth(pathname) && !HasSession(cookies) <==> Decide(cookies, pathname) == RedirectToSignIn(pathname)
    ensures Decide(cookies, pathname).RedirectToSignIn? ==> Decide(cookies, pathname).callbackUrl == pathname
    ensures Decide(cookies, pathname) == Next && RequiresAuth(pathname) ==> HasSession(cookies)
  {
  }

  /** A signed-in visit to /sign-in goes to the dashboard; every other
      combination passes through. */
  lemma SignInRedirectsSignedInUsers(cookies: Cookies, pathname: string)
    ensures Decide(cookies, pathname) == RedirectToDashboard <==> pathname == "/sign-in" && HasSession(cookies)
    ensures !RequiresAuth(pathname) && pathname != "/sign-in" ==> Decide(cookies, pathname) == Next
  {
    RequiresAuthExactly(pathname);
  }

  /** The two redirects never chase each other: the page a redirect sends
      the browser to lets the same cookies through. */
  lemma NoRedirectLoop(cookies: Cookies, pathname: string)
    ensures Decide(cookies, pathname).RedirectToSignIn? ==> Decide(cookies, "/sign-in") == Next
    ensures Decide(cookies, pathname) == RedirectToDashboard ==> Decide(cookies, "/dashboard") == Next
  {
    RequiresAuthExactly(pathname);
  }
}
