/** The route table and its guards: which page a path shows, and whether a
    visitor sees it, is sent to the login page, or is sent to their own
    dashboard. Also the root redirect and the stand-alone index page. */
module Routing {
  import opened Wrappers
  import opened ClaimTypes

  const LoginPath: string := "/login"
  const ClaimPrefix: string := "/claim/"

  /** Each role's home. The same three-entry table is written out in the
      route guard, the root redirect, the index page and the login form. */
  function DashboardPath(role: UserRole): (p: string)
    ensures p == "/" + RoleName(role)
    ensures p in {"/customer", "/adjuster", "/admin"}
    ensures p != LoginPath
  {
    match role
    case Customer => "/customer"
    case Adjuster => "/adjuster"
    case Admin => "/admin"
  }

  /** The three roles have three distinct homes. */
  lemma DashboardPathInjective(r1: UserRole, r2: UserRole)
    ensures DashboardPath(r1) == DashboardPath(r2) <==> r1 == r2
  {
  }

  datatype Page =
    | LoginPage
    | CustomerDashboardPage
    | UploadClaimPage
    | AdjusterDashboardPage
    | AdminDashboardPage
    | ClaimProcessingPage
    | NotFoundPage

  datatype RouteEntry =
    | PublicRoute(page: Page)
    | RootRoute
    | GuardedRoute(allowedRoles: Option<seq<UserRole>>, page: Page)

  /** `/claim/:id`: the prefix followed by one non-empty segment. */
  predicate IsClaimPath(path: string) {
    |path| > |ClaimPrefix| && path[..|ClaimPrefix|] == ClaimPrefix && '/' !in path[|ClaimPrefix|..]
  }

  /** A path whose third character is not the 'l' of "/claim/" is no claim path. */
  lemma NotClaimPath(path: string)
    requires |path| <= |ClaimPrefix| || path[2] != 'l'
    ensures !IsClaimPath(path)
  {
  }

  datatype Route = Route(path: string, entry: RouteEntry)

  /** The static part of the route table, in declaration order. */
  const StaticRoutes: seq<Route> := [
    Route("/login", PublicRoute(LoginPage)),
    Route("/", RootRoute),
    Route("/customer", GuardedRoute(Some([Customer]), CustomerDashboardPage)),
    Route("/customer/upload", GuardedRoute(Some([Customer]), UploadClaimPage)),
    Route("/customer/claims", GuardedRoute(Some([Customer]), CustomerDashboardPage)),
    Route("/adjuster", GuardedRoute(Some([Adjuster]), AdjusterDashboardPage)),
    Route("/adjuster/hitl", GuardedRoute(Some([Adjuster]), AdjusterDashboardPage)),
    Route("/adjuster/cag", GuardedRoute(Some([Adjuster]), AdjusterDashboardPage)),
    Route("/admin", GuardedRoute(Some([Admin]), AdminDashboardPage)),
    Route("/admin/users", GuardedRoute(Some([Admin]), AdminDashboardPage)),
    Route("/admin/analytics", GuardedRoute(Some([Admin]), AdminDashboardPage)),
    Route("/admin/settings", GuardedRoute(Some([Admin]), AdminDashboardPage))
  ]

  /** The entry of the first route whose path is exactly `path`. */
  function Lookup(routes: seq<Route>, path: string): (e: Option<RouteEntry>)
    ensures e.Some? ==> exists i :: 0 <= i < |routes| && routes[i].path == path && routes[i].entry == e.value
    ensures e.None? ==> forall i :: 0 <= i < |routes| ==> routes[i].path != path
  {
    if routes == [] then None
    else if routes[0].path == path then Some(routes[0].entry)
    else
      var e := Lookup(routes[1..], path);
      assert e.Some? ==> exists i :: 1 <= i < |routes| && routes[i].path == path && routes[i].entry == e.value by {
        if e.Some? {
          var j :| 0 <= j < |routes| - 1 && routes[1..][j].path == path && routes[1..][j].entry == e.value;
          assert routes[j + 1] == routes[1..][j];
        }
      }
      e
  }

  /** Lookup returns the first route with a matching path. */
  lemma {:induction false} LookupFinds(routes: seq<Route>, i: nat, path: string)
    requires i < |routes| && routes[i].path == path
    requires forall j :: 0 <= j < i ==> routes[j].path != path
    ensures Lookup(routes, path) == Some(routes[i].entry)
  {
    if i > 0 {
      LookupFinds(routes[1..], i - 1, path);
    }
  }

  /** The route table: the claim route, the static routes, and the catch-all
      not-found page. Only `/claim/:id` is guarded without a role list. */
  function RouteFor(path: string): (entry: RouteEntry)
    ensures (entry.GuardedRoute? && entry.allowedRoles.None?) <==> IsClaimPath(path)
    ensures entry.GuardedRoute? && entry.allowedRoles.Some? ==> |entry.allowedRoles.value| == 1
    ensures !IsClaimPath(path) && (forall i :: 0 <= i < |StaticRoutes| ==> StaticRoutes[i].path != path) ==>
      entry == PublicRoute(NotFoundPage)
  {
    if IsClaimPath(path) then GuardedRoute(None, ClaimProcessingPage)
    else Lookup(StaticRoutes, path).GetOr(PublicRoute(NotFoundPage))
  }

  datatype Decision = Allow | RedirectTo(target: string)

  /** The route guard. A missing user always goes to the login page. A present
      user is let through when the route has no role list or lists the user's
      role; any role list, even an empty one, that omits the role sends the
      user to their own dashboard. */
  function ProtectedRoute(user: Option<User>, allowedRoles: Option<seq<UserRole>>): (d: Decision)
    ensures user.None? ==> d == RedirectTo(LoginPath)
    ensures user.Some? ==> (d == Allow <==> allowedRoles.None? || user.value.role in allowedRoles.value)
    ensures user.Some? && d.RedirectTo? ==> d.target == DashboardPath(user.value.role)
  {
    if user.None? then RedirectTo(LoginPath)
    else if allowedRoles.Some? && user.value.role !in allowedRoles.value then RedirectTo(DashboardPath(user.value.role))
    else Allow
  }

  /** The root route: never content, always a redirect. */
  function AuthRedirect(user: Option<User>): (target: string)
    ensures user.None? ==> target == LoginPath
    ensures user.Some? ==> target == DashboardPath(user.value.role)
  {
    match user
    case None => LoginPath
    case Some(u) => DashboardPath(u.role)
  }

  datatype Outcome = Render(page: Page) | Redirect(to: string)

  /** What visiting `path` does for the session's `user`. */
  function Resolve(user: Option<User>, path: string): (o: Outcome)
    ensures RouteFor(path).PublicRoute? ==> o == Render(RouteFor(path).page)
    ensures RouteFor(path).RootRoute? ==> o == Redirect(AuthRedirect(user))
    ensures RouteFor(path).GuardedRoute? && ProtectedRoute(user, RouteFor(path).allowedRoles).Allow? ==>
      o == Render(RouteFor(path).page)
    ensures RouteFor(path).GuardedRoute? && ProtectedRoute(user, RouteFor(path).allowedRoles).RedirectTo? ==>
      o == Redirect(ProtectedRoute(user, RouteFor(path).allowedRoles).target)
  {
    match RouteFor(path)
    case PublicRoute(page) => Render(page)
    case RootRoute => Redirect(AuthRedirect(user))
    case GuardedRoute(allowed, page) =>
      match ProtectedRoute(user, allowed)
      case Allow => Render(page)
      case RedirectTo(t) => Redirect(t)
  }

  function DashboardPage(role: UserRole): Page {
    match role
    case Customer => CustomerDashboardPage
    case Adjuster => AdjusterDashboardPage
    case Admin => AdminDashboardPage
  }

  /** The static paths are pairwise distinct. */
  lemma StaticPathsDistinct()
    ensures forall i, j :: 0 <= i < j < |StaticRoutes| ==> StaticRoutes[i].path != StaticRoutes[j].path
  {
  }

  /** Visiting a static route's path selects that route. */
  lemma StaticRouteAt(i: nat)
    requires i < |StaticRoutes|
    ensures RouteFor(StaticRoutes[i].path) == StaticRoutes[i].entry
  {
    StaticPathsDistinct();
    NotClaimPath(StaticRoutes[i].path);
    LookupFinds(StaticRoutes, i, StaticRoutes[i].path);
  }

  /** The table entry of each role's home. */
  lemma HomeRoute(r: UserRole)
    ensures RouteFor(DashboardPath(r)) == GuardedRoute(Some([r]), DashboardPage(r))
  {
    match r
    case Customer => StaticRouteAt(2);
    case Adjuster => StaticRouteAt(5);
    case Admin => StaticRouteAt(8);
  }

  /** The home of role r admits r and shows that role's dashboard. */
  lemma DashboardAdmitsOwnRole(u: User)
    ensures Resolve(Some(u), DashboardPath(u.role)) == Render(DashboardPage(u.role))
  {
    HomeRoute(u.role);
    assert u.role in [u.role];
  }

  /** No redirect loop: whatever path is visited, at most one redirect leads
      to a page that renders. */
  lemma {:induction false} NoRedirectLoop(user: Option<User>, path: string)
    ensures Resolve(user, path).Redirect? ==> Resolve(user, Resolve(user, path).to).Render?
  {
    match user
    case None =>
      assert RouteFor(LoginPath) == PublicRoute(LoginPage);
    case Some(u) =>
      DashboardAdmitsOwnRole(u);
  }

  /** A visitor without a session is sent to the login page from every guarded
      route, whatever its role list. */
  lemma GuardedRouteNeedsSession(path: string)
    requires RouteFor(path).GuardedRoute?
    ensures Resolve(None, path) == Redirect(LoginPath)
  {
  }

  /** A user whose role a route does not list is sent to their own dashboard. */
  lemma WrongRoleGoesHome(u: User, path: string)
    requires RouteFor(path).GuardedRoute? && RouteFor(path).allowedRoles.Some?
    requires u.role !in RouteFor(path).allowedRoles.value
    ensures Resolve(Some(u), path) == Redirect(DashboardPath(u.role))
  {
  }

  /** `/claim/:id` admits every signed-in role. */
  lemma ClaimRouteAdmitsEveryRole(u: User, id: string)
    requires id != [] && '/' !in id
    ensures Resolve(Some(u), ClaimPrefix + id) == Render(ClaimProcessingPage)
  {
    var p := ClaimPrefix + id;
    assert p[..|ClaimPrefix|] == ClaimPrefix && p[|ClaimPrefix|..] == id;
    assert p[1] == 'c' && p[2] == 'l';
  }

  /** In the static table, every guarded route under a role's home admits that role alone. */
  lemma StaticNamesakeRoutes(i: nat, r: UserRole)
    requires i < |StaticRoutes|
    requires DashboardPath(r) <= StaticRoutes[i].path
    requires StaticRoutes[i].entry.GuardedRoute?
    ensures StaticRoutes[i].entry.allowedRoles == Some([r])
  {
    var home := DashboardPath(r);
    var p := StaticRoutes[i].path;
    assert p[..|home|] == home;
    assert p[1] == home[1] && p[2] == home[2] && p[3] == home[3];
  }

  /** Every route under a role's home admits that role alone. */
  lemma {:induction false} NamesakeRoutes(path: string, r: UserRole)
    requires DashboardPath(r) <= path
    requires RouteFor(path).GuardedRoute?
    ensures RouteFor(path).allowedRoles == Some([r])
  {
    var home := DashboardPath(r);
    assert path[..|home|] == home;
    assert path[2] == home[2];
    NotClaimPath(path);
    var i :| 0 <= i < |StaticRoutes| && StaticRoutes[i].path == path && StaticRoutes[i].entry == RouteFor(path);
    StaticNamesakeRoutes(i, r);
  }

  /** The stand-alone index page: a redirect, never content, and the same one the root route performs. */
  function IndexRedirect(user: Option<User>): (o: Outcome)
    ensures o.Redirect?
    ensures o == Resolve(user, "/")
  {
    if user.None? then Redirect(LoginPath) else Redirect(DashboardPath(user.value.role))
  }
}
