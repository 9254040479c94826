/**
 * The edge middleware: which paths need a session, which are the sign-in
 * pages, how a session is detected from the cookies, and where the request
 * is sent. The configured matcher decides which paths it runs on at all.
 */
module Middleware {
  import opened Wrappers

  predicate IsPrefix(pre: string, s: string) {
    |pre| <= |s| && s[..|pre|] == pre
  }

  const ProtectedPrefixes: seq<string> := ["/dashboard", "/profile", "/contests/create", "/achievements"]

  /** The protection regex: one of the four alternatives anchored at the start, a plain string prefix. */
  function IsProtected(path: string): (r: bool)
    ensures r <==> exists i :: 0 <= i < |ProtectedPrefixes| && IsPrefix(ProtectedPrefixes[i], path)
  {
    if IsPrefix("/dashboard", path) then
      assert IsPrefix(ProtectedPrefixes[0], path);
      true
    else if IsPrefix("/profile", path) then
      assert IsPrefix(ProtectedPrefixes[1], path);
      true
    else if IsPrefix("/contests/create", path) then
      assert IsPrefix(ProtectedPrefixes[2], path);
      true
    else if IsPrefix("/achievements", path) then
      assert IsPrefix(ProtectedPrefixes[3], path);
      true
    else
      false
  }

  predicate IsAuthRoute(path: string) {
    path == "/login" || path == "/signup"
  }

  /** No path is both protected and a sign-in page. */
  lemma ProtectedAndAuthDisjoint(path: string)
    ensures !(IsProtected(path) && IsAuthRoute(path))
  {
    if IsAuthRoute(path) {
      forall i | 0 <= i < |ProtectedPrefixes|
        ensures !IsPrefix(ProtectedPrefixes[i], path)
      {
        assert |ProtectedPrefixes[i]| > |path|;
      }
    }
  }

  /** The protection is a string prefix, not a path segment: a sibling name that extends a prefix is protected too. */
  lemma ProtectionIsStringPrefix()
    ensures IsProtected("/dashboardx") && IsProtected("/profiles") && IsProtected("/contests/create/2")
  {
    assert IsPrefix("/dashboard", "/dashboardx");
    assert IsPrefix("/profile", "/profiles");
    assert IsPrefix("/contests/create", "/contests/create/2");
  }

  // ---------------------------------------------------------------------
  // Session detection

  /** The session cookies looked for, in order. */
  const SessionCookieNames: seq<string> := [
    "next-auth.session-token",
    "__Secure-next-auth.session-token",
    "__Host-next-auth.session-token",
    "next-auth.session-token.1",
    "next-auth.jwt-token"]

  /** The first of `names` the request carries a cookie for. */
  function FirstPresent(names: seq<string>, cookies: map<string, string>): (r: Option<string>)
    ensures r.Some? ==> r.value in names && r.value in cookies
    ensures r.None? <==> forall i :: 0 <= i < |names| ==> names[i] !in cookies
  {
    if names == [] then None
    else if names[0] in cookies then Some(names[0])
    else
      var rest := FirstPresent(names[1..], cookies);
      assert forall i :: 1 <= i < |names| ==> names[1..][i - 1] == names[i];
      rest
  }

  /** `FirstPresent` picks the earliest name present. */
  lemma {:induction false} FirstPresentIsFirst(names: seq<string>, cookies: map<string, string>)
    requires FirstPresent(names, cookies).Some?
    ensures exists i :: 0 <= i < |names| && names[i] == FirstPresent(names, cookies).value
                        && forall j :: 0 <= j < i ==> names[j] !in cookies
  {
    if names[0] !in cookies {
      FirstPresentIsFirst(names[1..], cookies);
      var i :| 0 <= i < |names[1..]| && names[1..][i] == FirstPresent(names[1..], cookies).value
               && forall j :: 0 <= j < i ==> names[1..][j] !in cookies;
      assert names[i + 1] == FirstPresent(names, cookies).value;
      assert forall j :: 0 <= j < i + 1 ==> names[j] !in cookies by {
        forall j | 0 <= j < i + 1
          ensures names[j] !in cookies
        {
          if j > 0 {
            assert names[j] == names[1..][j - 1];
          }
        }
      }
    }
  }

  /**
   * The cookie scan: the first listed session cookie the request carries.
   * Only presence counts; the cookie's value is never looked at.
   */
  method FindAuthCookie(cookies: map<string, string>) returns (authCookie: Option<string>)
    ensures authCookie == FirstPresent(SessionCookieNames, cookies)
  {
    authCookie := None;
    var i := 0;
    while i < |SessionCookieNames|
      invariant 0 <= i <= |SessionCookieNames|
      invariant authCookie.None?
      invariant FirstPresent(SessionCookieNames, cookies) == FirstPresent(SessionCookieNames[i..], cookies)
    {
      assert SessionCookieNames[i..][1..] == SessionCookieNames[i + 1..];
      if SessionCookieNames[i] in cookies {
        authCookie := Some(SessionCookieNames[i]);
        return;
      }
      i := i + 1;
    }
  }

  predicate IsAuthenticated(cookies: map<string, string>) {
    FirstPresent(SessionCookieNames, cookies).Some?
  }

  /** Signed in exactly when one of the five names is present, whatever its value. */
  lemma AuthenticatedIffCookie(cookies: map<string, string>)
    ensures IsAuthenticated(cookies) <==> exists i :: 0 <= i < |SessionCookieNames| && SessionCookieNames[i] in cookies
  {
  }

  // ---------------------------------------------------------------------
  // The decision

  datatype Decision =
    /** To `/login?callbackUrl=<path>`. */
    | RedirectToLogin(callbackUrl: string)
    | RedirectToDashboard
    /** The request goes on unchanged. */
    | Next

  function Decide(path: string, authenticated: bool): (d: Decision)
    ensures d.RedirectToLogin? <==> IsProtected(path) && !authenticated
    ensures d.RedirectToLogin? ==> d.callbackUrl == path
    ensures d == RedirectToDashboard <==> IsAuthRoute(path) && authenticated
    ensures d == Next <==> !(IsProtected(path) && !authenticated) && !(IsAuthRoute(path) && authenticated)
  {
    ProtectedAndAuthDisjoint(path);
    if IsProtected(path) && !authenticated then RedirectToLogin(path)
    else if IsAuthRoute(path) && authenticated then RedirectToDashboard
    else Next
  }

  /** The middleware on one request. */
  method Run(path: string, cookies: map<string, string>) returns (d: Decision)
    ensures d == Decide(path, IsAuthenticated(cookies))
  {
    var authCookie := FindAuthCookie(cookies);
    var isAuthenticated := authCookie.Some?;
    d := Decide(path, isAuthenticated);
  }

  // ---------------------------------------------------------------------
  // Where the middleware runs

  /** `/section/:path*`: the section itself or anything below it. */
  predicate UnderSection(section: string, path: string) {
    path == section || IsPrefix(section + "/", path)
  }

  /** The configured matcher. */
  predicate Matches(path: string) {
    || UnderSection("/dashboard", path)
    || UnderSection("/profile", path)
    || path == "/contests/create"
    || UnderSection("/achievements", path)
    || path == "/login"
    || path == "/signup"
  }

  /** What a request meets: the middleware's decision on matched paths, nothing otherwise. */
  function Effective(path: string, cookies: map<string, string>): Decision {
    if Matches(path) then Decide(path, IsAuthenticated(cookies)) else Next
  }

  lemma DiffersAt(pre: string, s: string, i: nat)
    requires i < |pre| && i < |s| && pre[i] != s[i]
    ensures !IsPrefix(pre, s)
  {
  }

  lemma PrefixOfExtension(pre: string, path: string)
    requires IsPrefix(pre + "/", path)
    ensures IsPrefix(pre, path)
  {
    assert path[..|pre|] == (pre + "/")[..|pre|];
  }

  /** Every matched path is either protected or a sign-in page. */
  lemma MatchedPathsAreClassified(path: string)
    requires Matches(path)
    ensures IsProtected(path) != IsAuthRoute(path)
  {
    ProtectedAndAuthDisjoint(path);
    if IsPrefix("/dashboard/", path) {
      PrefixOfExtension("/dashboard", path);
    } else if IsPrefix("/profile/", path) {
      PrefixOfExtension("/profile", path);
    } else if IsPrefix("/achievements/", path) {
      PrefixOfExtension("/achievements", path);
    }
    assert IsPrefix("/dashboard", "/dashboard") && IsPrefix("/profile", "/profile");
    assert IsPrefix("/contests/create", "/contests/create") && IsPrefix("/achievements", "/achievements");
  }

  /**
   * The matcher takes `/contests/create` exactly, so a path below it is
   * protected by the regex yet never reaches the middleware; so are paths
   * that only extend a section name.
   */
  lemma MatcherNarrowerThanRegex(cookies: map<string, string>)
    ensures IsProtected("/contests/create/2") && !Matches("/contests/create/2")
    ensures Effective("/contests/create/2", cookies) == Next
    ensures IsProtected("/dashboardx") && !Matches("/dashboardx")
  {
    ProtectionIsStringPrefix();
    DiffersAt("/dashboard/", "/contests/create/2", 1);
    DiffersAt("/profile/", "/contests/create/2", 1);
    DiffersAt("/achievements/", "/contests/create/2", 1);
    DiffersAt("/dashboard/", "/dashboardx", 10);
    DiffersAt("/profile/", "/dashboardx", 1);
    DiffersAt("/achievements/", "/dashboardx", 1);
  }

  /** A request without a session cookie for a page below the dashboard is sent to sign in, coming back to where it was. */
  lemma DashboardNeedsSession(rest: string, cookies: map<string, string>)
    requires !IsAuthenticated(cookies)
    ensures Effective("/dashboard/" + rest, cookies) == RedirectToLogin("/dashboard/" + rest)
  {
    var path := "/dashboard/" + rest;
    assert path[..|"/dashboard/"|] == "/dashboard/";
    PrefixOfExtension("/dashboard", path);
  }
}
