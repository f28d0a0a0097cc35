/**
 * The request middleware: which paths it runs on, and for those whether a
 * request passes or is redirected, from the signed-in user, the error of the
 * user lookup and the user's role in the `users` table.
 *
 * The authentication service's and the store's answers are parameters.
 */
module Middleware {
  import opened Wrappers
  import opened Strings

  /** What the middleware does with a request. */
  datatype Decision = Pass | RedirectTo(path: string)

  /** The answer of the role query for the signed-in user. */
  datatype RoleLookup = RoleFound(role: string) | RoleNotFound | RoleQueryThrew

  /** Everything the decision depends on besides the path. */
  datatype Session = Session(user: Option<string>, userError: Option<string>, role: RoleLookup)

  /** The route matcher: `/dashboard` and everything below it, `/login` and `/register`. */
  predicate Matched(path: string) {
    path == "/dashboard" || StartsWith(path, "/dashboard/") || path == "/login" || path == "/register"
  }

  predicate AuthPage(path: string) {
    StartsWith(path, "/login") || StartsWith(path, "/register")
  }

  /** The role a path below `/dashboard` demands, if any; the admin check comes first. */
  function RequiredRole(path: string): (r: Option<string>)
    ensures r.Some? ==> r.value in {"admin", "teacher", "parent"}
  {
    if StartsWith(path, "/dashboard/admin") then Some("admin")
    else if StartsWith(path, "/dashboard/teacher") then Some("teacher")
    else if StartsWith(path, "/dashboard/parent") then Some("parent")
    else None
  }

  /** `middleware` on a path it runs on. */
  function Decide(path: string, s: Session): Decision {
    if AuthPage(path) then
      if s.user.Some? then RedirectTo("/dashboard") else Pass
    else if StartsWith(path, "/dashboard") then
      if s.user.None? || s.userError.Some? then RedirectTo("/login")
      else match s.role
        case RoleNotFound => RedirectTo("/login")
        case RoleQueryThrew => RedirectTo("/login")
        case RoleFound(role) =>
          var required := RequiredRole(path);
          if required.Some? && role != required.value then RedirectTo("/dashboard") else Pass
    else Pass
  }

  /** A request: paths outside the matcher never reach the middleware and pass. */
  function Route(path: string, s: Session): (d: Decision)
    ensures !Matched(path) ==> d == Pass
    ensures d.RedirectTo? ==> d.path in {"/dashboard", "/login"}
  {
    if Matched(path) then Decide(path, s) else Pass
  }

  /** A session whose signed-in user, if any, was looked up without error and has a role. */
  predicate Consistent(s: Session) {
    s.user.None? || (s.userError.None? && s.role.RoleFound?)
  }

  lemma DashboardIsNotAuthPage()
    ensures !AuthPage("/dashboard") && StartsWith("/dashboard", "/dashboard") && RequiredRole("/dashboard").None?
    ensures AuthPage("/login") && !StartsWith("/login", "/dashboard")
  {
    assert "/dashboard"[1] != "/login"[1];
    assert "/dashboard"[1] != "/register"[1];
    assert |"/dashboard"| < |"/dashboard/admin"|;
    assert |"/dashboard"| < |"/dashboard/parent"|;
    assert |"/dashboard"| < |"/dashboard/teacher"|;
    assert "/login"[..6] == "/login";
  }

  /** Signed-out visitors of the dashboard go to the login page; signed-in visitors of the auth pages go to the dashboard. */
  lemma AuthRedirects(path: string, s: Session)
    requires Matched(path)
    ensures AuthPage(path) && s.user.Some? ==> Route(path, s) == RedirectTo("/dashboard")
    ensures AuthPage(path) && s.user.None? ==> Route(path, s) == Pass
    ensures StartsWith(path, "/dashboard") && s.user.None? ==> Route(path, s) == RedirectTo("/login")
  {
    if StartsWith(path, "/dashboard") {
      assert path[1] == 'd';
      assert !StartsWith(path, "/login") by { assert "/login"[1] == 'l'; }
      assert !StartsWith(path, "/register") by { assert "/register"[1] == 'r'; }
    }
  }

  /**
   * A role-restricted page is reached exactly by a consistent signed-in user
   * holding that role; anyone else signed in is sent back to the dashboard.
   */
  lemma RoleGuard(path: string, s: Session)
    requires StartsWith(path, "/dashboard/") && RequiredRole(path).Some?
    requires s.user.Some? && Consistent(s)
    ensures Route(path, s) == Pass <==> s.role.role == RequiredRole(path).value
    ensures Route(path, s) != Pass ==> Route(path, s) == RedirectTo("/dashboard")
  {
    assert path[1] == 'd';
    assert !AuthPage(path) by {
      assert "/login"[1] == 'l';
      assert "/register"[1] == 'r';
    }
    assert StartsWith(path, "/dashboard") by {
      assert path[..10] == "/dashboard/"[..10];
    }
  }

  /**
   * For a consistent session every redirect lands on a page that passes:
   * following redirects takes at most one step.
   */
  lemma RedirectsSettle(path: string, s: Session)
    requires Consistent(s)
    requires Route(path, s).RedirectTo?
    ensures Route(Route(path, s).path, s) == Pass
  {
    DashboardIsNotAuthPage();
    assert Matched("/dashboard") && Matched("/login");
  }

  /**
   * A signed-in user whose lookup errs or who has no role row is sent from
   * the dashboard to the login page and from the login page back to the
   * dashboard, for ever.
   */
  lemma InconsistentSessionLoops(s: Session)
    requires s.user.Some? && !Consistent(s)
    ensures Route("/dashboard", s) == RedirectTo("/login")
    ensures Route("/login", s) == RedirectTo("/dashboard")
  {
    DashboardIsNotAuthPage();
    assert Matched("/dashboard") && Matched("/login");
  }

  /** The admin guard is a prefix test: `/dashboard/administration` is admin-only too. */
  lemma AdminPrefix()
    ensures RequiredRole("/dashboard/administration") == Some("admin")
  {
    assert "/dashboard/administration"[..16] == "/dashboard/admin";
  }
}
