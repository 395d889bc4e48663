/** The dashboard frame: the navigation list chosen by role, the active-item
    test, the user badge fallbacks and the logout button. */
module Layout {
  import opened Wrappers
  import opened ClaimTypes
  import opened Auth
  import opened Routing

  /** A sidebar entry (its icon is not modelled). */
  datatype NavItem = NavItem(caption: string, path: string)

  const CustomerNavItems: seq<NavItem> := [
    NavItem("Dashboard", "/customer"),
    NavItem("Upload Claim", "/customer/upload"),
    NavItem("My Claims", "/customer/claims")
  ]

  const AdjusterNavItems: seq<NavItem> := [
    NavItem("Dashboard", "/adjuster"),
    NavItem("HITL Review", "/adjuster/hitl"),
    NavItem("CAG Corrections", "/adjuster/cag")
  ]

  const AdminNavItems: seq<NavItem> := [
    NavItem("Dashboard", "/admin"),
    NavItem("User Management", "/admin/users"),
    NavItem("Analytics", "/admin/analytics"),
    NavItem("System Settings", "/admin/settings")
  ]

  /** Customers and adjusters get their own three entries; everyone else,
      including a visitor with no session, gets the four admin entries. */
  function NavItems(user: Option<User>): (items: seq<NavItem>)
    ensures user.Some? && user.value.role == Customer ==> items == CustomerNavItems && |items| == 3
    ensures user.Some? && user.value.role == Adjuster ==> items == AdjusterNavItems && |items| == 3
    ensures user.None? || user.value.role == Admin ==> items == AdminNavItems && |items| == 4
  {
    if user.Some? && user.value.role == Customer then CustomerNavItems
    else if user.Some? && user.value.role == Adjuster then AdjusterNavItems
    else AdminNavItems
  }

  /** An entry is highlighted when the current path is exactly its path. */
  predicate IsActive(pathname: string, item: NavItem)
    ensures IsActive(pathname, item) <==>
      |pathname| == |item.path| && forall i :: 0 <= i < |pathname| ==> pathname[i] == item.path[i]
  {
    pathname == item.path
  }

  /** Within every list the paths are distinct, so at most one entry is highlighted. */
  lemma AtMostOneActive(user: Option<User>, pathname: string, i: nat, j: nat)
    requires i < |NavItems(user)| && j < |NavItems(user)|
    requires IsActive(pathname, NavItems(user)[i]) && IsActive(pathname, NavItems(user)[j])
    ensures i == j
  {
  }

  /** A longer path below an entry's path does not highlight it. */
  lemma PrefixIsNotActive(item: NavItem, rest: string)
    requires rest != []
    ensures !IsActive(item.path + rest, item)
  {
    assert |item.path + rest| > |item.path|;
  }

  /** Every entry a signed-in user is shown opens without a redirect. */
  lemma {:induction false} NavItemsOpen(u: User, i: nat)
    requires i < |NavItems(Some(u))|
    ensures Resolve(Some(u), NavItems(Some(u))[i].path).Render?
  {
    var k := match u.role case Customer => 2 + i case Adjuster => 5 + i case Admin => 8 + i;
    assert k < |StaticRoutes| && StaticRoutes[k].path == NavItems(Some(u))[i].path;
    StaticRouteAt(k);
    assert StaticRoutes[k].entry.allowedRoles == Some([u.role]);
    assert u.role in [u.role];
  }

  function RoleLabel(role: UserRole): string {
    match role
    case Customer => "Customer"
    case Adjuster => "Adjuster"
    case Admin => "Admin"
  }

  /** The role caption under the user's name; with no session it reads
      "Customer" although the admin entries are listed. */
  function RoleCaption(user: Option<User>): (caption: string)
    ensures user.None? ==> caption == "Customer" && NavItems(user) == AdminNavItems
    ensures user.Some? ==> caption == RoleLabel(user.value.role)
  {
    RoleLabel(if user.Some? then user.value.role else Customer)
  }

  /** The avatar letter: the first character of the name, or 'U' when there
      is no user or the name is empty. */
  function AvatarInitial(user: Option<User>): (c: char)
    ensures user.Some? && user.value.name != [] ==> c == user.value.name[0]
    ensures user.None? || user.value.name == [] ==> c == 'U'
  {
    if user.Some? && |user.value.name| > 0 then user.value.name[0] else 'U'
  }

  /** The displayed name, or "User" when there is none. */
  function DisplayName(user: Option<User>): (name: string)
    ensures name != []
    ensures user.Some? && user.value.name != [] ==> name == user.value.name
    ensures user.None? || user.value.name == [] ==> name == "User"
  {
    if user.Some? && user.value.name != [] then user.value.name else "User"
  }

  /** Logging out clears the session first and then goes to the login page,
      which renders for the signed-out visitor. */
  method HandleLogout(session: AuthSession) returns (target: string)
    modifies session
    ensures session.user == None
    ensures target == LoginPath
    ensures Resolve(session.user, target) == Render(LoginPage)
  {
    session.Logout();
    target := LoginPath;
  }
}
