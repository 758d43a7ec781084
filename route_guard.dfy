/**
 * The route-gating decision of the request middleware (middleware.ts). The awaited token
 * lookup is an input: `None` when the request carries no session token, otherwise the token
 * with its role string. The framework's response objects become the `Decision` datatype.
 */
module RouteGuard {
  import opened Wrappers

  datatype Token = Token(role: string)

  /** Pass the request on, or redirect it to `path`, with a `callbackUrl` query parameter when one is set. */
  datatype Decision = Next | Redirect(path: string, callbackUrl: Option<string>)

  predicate StartsWith(s: string, prefix: string) {
    |prefix| <= |s| && s[..|prefix|] == prefix
  }

  const LoginPath: string := "/auth/login"
  const ForbiddenPath: string := "/403"
  const FallbackHome: string := "/sessions"

  /** Where an already signed-in user is sent away from the sign-in pages, by role. */
  const RoleHome: map<string, string> := map["COACH" := "/coach/dashboard", "PARTICIPANT" := "/sessions"]

  function LoginRedirect(pathname: string): Decision {
    Redirect(LoginPath, Some(pathname))
  }

  predicate MayUseCoachArea(role: string) {
    role == "COACH" || role == "SUPER_ADMIN"
  }

  /** The role lookup `redirects[role] || '/sessions'`: a missing (or empty) entry falls back. */
  function HomeOf(role: string): (url: string)
    ensures role == "COACH" ==> url == "/coach/dashboard"
    ensures role != "COACH" ==> url == FallbackHome
  {
    if role in RoleHome && RoleHome[role] != "" then RoleHome[role] else FallbackHome
  }

  /** The middleware: the chain of prefix tests and early returns, in the order of the source. */
  function Middleware(pathname: string, token: Option<Token>): (d: Decision)
    ensures StartsWith(pathname, "/admin") ==> d == Next
    ensures d.Redirect? && d.callbackUrl.Some? ==> token.None? && d == LoginRedirect(pathname)
    ensures d.Redirect? && d.callbackUrl.None? ==> token.Some?
    ensures token.None? ==> d == Next || d == LoginRedirect(pathname)
  {
    if StartsWith(pathname, "/admin") then Next
    else if StartsWith(pathname, "/coach") && token.None? then LoginRedirect(pathname)
    else if StartsWith(pathname, "/coach") && !MayUseCoachArea(token.value.role) then Redirect(ForbiddenPath, None)
    else if StartsWith(pathname, "/session/") && token.None? then LoginRedirect(pathname)
    else if pathname == "/sessions" && token.None? then LoginRedirect(pathname)
    else if StartsWith(pathname, "/auth/") && token.Some? then
      (if token.value.role == "SUPER_ADMIN" then Next else Redirect(HomeOf(token.value.role), None))
    else Next
  }

  // ---------------------------------------------------------------------------
  // An independent statement of the policy: classify the path, then decide per area
  // ---------------------------------------------------------------------------

  datatype Area = AdminArea | CoachArea | SessionPage | SessionList | AuthPages | Ungated

  /** The route families the middleware distinguishes; at most one of the tests holds. */
  function AreaOf(pathname: string): (a: Area)
    ensures a == AdminArea <==> StartsWith(pathname, "/admin")
    ensures a == CoachArea <==> StartsWith(pathname, "/coach")
    ensures a == SessionPage <==> StartsWith(pathname, "/session/")
    ensures a == SessionList <==> pathname == "/sessions"
    ensures a == AuthPages <==> StartsWith(pathname, "/auth/")
  {
    PrefixesDisjoint(pathname);
    if StartsWith(pathname, "/admin") then AdminArea
    else if StartsWith(pathname, "/coach") then CoachArea
    else if StartsWith(pathname, "/session/") then SessionPage
    else if pathname == "/sessions" then SessionList
    else if StartsWith(pathname, "/auth/") then AuthPages
    else Ungated
  }

  /** The gated prefixes exclude one another, so the order of the tests does not matter. */
  lemma PrefixesDisjoint(p: string)
    ensures StartsWith(p, "/admin") ==> !StartsWith(p, "/coach") && !StartsWith(p, "/session/") && p != "/sessions" && !StartsWith(p, "/auth/")
    ensures StartsWith(p, "/coach") ==> !StartsWith(p, "/session/") && p != "/sessions" && !StartsWith(p, "/auth/")
    ensures StartsWith(p, "/session/") ==> p != "/sessions" && !StartsWith(p, "/auth/")
    ensures p == "/sessions" ==> !StartsWith(p, "/auth/")
  {
    if |p| >= 2 {
      assert StartsWith(p, "/admin") ==> p[1] == 'a' && p[2] == 'd';
      assert StartsWith(p, "/auth/") ==> p[1] == 'a' && p[2] == 'u';
      assert StartsWith(p, "/coach") ==> p[1] == 'c';
      assert StartsWith(p, "/session/") ==> p[1] == 's' && p[8] == '/';
    }
  }

  /** The decision table per area and token. */
  function Policy(area: Area, token: Option<Token>, pathname: string): Decision {
    match area
    case AdminArea => Next
    case CoachArea =>
      if token.None? then LoginRedirect(pathname)
      else if MayUseCoachArea(token.value.role) then Next
      else Redirect(ForbiddenPath, None)
    case SessionPage => if token.None? then LoginRedirect(pathname) else Next
    case SessionList => if token.None? then LoginRedirect(pathname) else Next
    case AuthPages =>
      if token.None? || token.value.role == "SUPER_ADMIN" then Next
      else if token.value.role == "COACH" then Redirect("/coach/dashboard", None)
      else Redirect(FallbackHome, None)
    case Ungated => Next
  }

  /** The chain of early returns decides exactly as the table does, for every path and token. */
  lemma MiddlewareFollowsPolicy(pathname: string, token: Option<Token>)
    ensures Middleware(pathname, token) == Policy(AreaOf(pathname), token, pathname)
  {
  }

  // ---------------------------------------------------------------------------
  // The rules one at a time
  // ---------------------------------------------------------------------------

  lemma AdminAlwaysPasses(pathname: string, token: Option<Token>)
    requires StartsWith(pathname, "/admin")
    ensures Middleware(pathname, token) == Next
  {
  }

  lemma CoachAreaGate(pathname: string, token: Option<Token>)
    requires StartsWith(pathname, "/coach")
    ensures token.None? ==> Middleware(pathname, token) == Redirect("/auth/login", Some(pathname))
    ensures token.Some? && MayUseCoachArea(token.value.role) ==> Middleware(pathname, token) == Next
    ensures token.Some? && !MayUseCoachArea(token.value.role) ==> Middleware(pathname, token) == Redirect("/403", None)
  {
  }

  lemma SessionPagesNeedSignIn(pathname: string, token: Option<Token>)
    requires StartsWith(pathname, "/session/") || pathname == "/sessions"
    ensures token.None? ==> Middleware(pathname, token) == Redirect("/auth/login", Some(pathname))
    ensures token.Some? ==> Middleware(pathname, token) == Next
  {
    PrefixesDisjoint(pathname);
  }

  /** Only the list itself is gated: a path below `/sessions/` is not. */
  lemma SessionsSubpathUngated(token: Option<Token>)
    ensures Middleware("/sessions/x", token) == Next
  {
    PrefixesDisjoint("/sessions/x");
    assert !StartsWith("/sessions/x", "/session/") by {
      assert "/sessions/x"[8] == 's';
    }
  }

  lemma AuthPagesSendSignedInUsersHome(pathname: string, token: Option<Token>)
    requires StartsWith(pathname, "/auth/")
    ensures token.None? ==> Middleware(pathname, token) == Next
    ensures token == Some(Token("SUPER_ADMIN")) ==> Middleware(pathname, token) == Next
    ensures token == Some(Token("COACH")) ==> Middleware(pathname, token) == Redirect("/coach/dashboard", None)
    ensures token.Some? && token.value.role != "SUPER_ADMIN" && token.value.role != "COACH" ==>
              Middleware(pathname, token) == Redirect("/sessions", None)
  {
  }

  lemma UngatedPathsPass(pathname: string, token: Option<Token>)
    requires AreaOf(pathname) == Ungated
    ensures Middleware(pathname, token) == Next
  {
  }
}
