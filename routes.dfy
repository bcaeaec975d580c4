/**
 * The frontend's route table and the navigation filter that picks the
 * routes a visitor may see (frontend/routes.js).
 */
module Routes {
  import opened Values

  /** Route metadata. A missing `requiresAuth` reads as `false`;
      `allowedRoles` is `None` when the route does not restrict roles. */
  datatype Meta = Meta(requiresAuth: bool, allowedRoles: Option<seq<string>>)

  /** A route as the table lists it (the lazily imported page component is left out). */
  datatype Route = Route(name: string, path: string, meta: Meta)

  const LoginRoute := Route("Login", "/login", Meta(false, None))
  const SignUpRoute := Route("Sign Up", "/signup", Meta(false, None))
  const MyEventsRoute := Route("My Events", "/user/my-events", Meta(true, Some(["user"])))
  const TicketsRoute := Route("Ticket Reservation", "/user/tickets", Meta(true, Some(["user"])))
  const BookmarksRoute := Route("Bookmarks", "/user/bookmarks", Meta(true, Some(["user"])))
  const SettingsRoute := Route("Settings", "/user/settings", Meta(true, Some(["user", "admin"])))
  const DashboardRoute := Route("Dashboard", "/admin/dashboard", Meta(true, Some(["admin"])))
  const EventsRoute := Route("Event Management", "/admin/events", Meta(true, Some(["admin"])))
  const UsersRoute := Route("Manage Users", "/admin/users", Meta(true, Some(["admin"])))
  const LogoutRoute := Route("Logout", "/logout", Meta(true, Some(["user", "admin"])))

  /** The exported `routes` array, in declaration order. */
  const AllRoutes: seq<Route> := [
    LoginRoute, SignUpRoute, MyEventsRoute, TicketsRoute, BookmarksRoute,
    SettingsRoute, DashboardRoute, EventsRoute, UsersRoute, LogoutRoute
  ]

  /** `allowedRoles.includes(role)`; a `null` role is in no list of strings. */
  predicate Includes(roles: seq<string>, role: Option<string>) {
    role.Some? && role.value in roles
  }

  /** The role condition shared by the navigation filter and the route guard:
      a route that lists `allowedRoles` admits only the roles it lists. */
  predicate RoleAllowed(meta: Meta, role: Option<string>) {
    meta.allowedRoles.None? || Includes(meta.allowedRoles.value, role)
  }

  predicate IsGuestPage(route: Route) {
    route.name == "Login" || route.name == "Sign Up"
  }

  /** The callback given to `routes.filter`, with its three early returns in order. */
  predicate Keep(route: Route, role: Option<string>, isAuthenticated: bool) {
    if isAuthenticated && IsGuestPage(route) then false
    else if route.meta.requiresAuth && !isAuthenticated then false
    else if !RoleAllowed(route.meta, role) then false
    else true
  }

  /** `Array.prototype.filter` with the `Keep` callback. */
  function Filter(rs: seq<Route>, role: Option<string>, isAuthenticated: bool): (r: seq<Route>)
    ensures |r| <= |rs|
  {
    if rs == [] then []
    else
      var rest := Filter(rs[1..], role, isAuthenticated);
      if Keep(rs[0], role, isAuthenticated) then [rs[0]] + rest else rest
  }

  function GetNavigationRoutes(role: Option<string>, isAuthenticated: bool): seq<Route> {
    Filter(AllRoutes, role, isAuthenticated)
  }

  /** A route is in the filter's result exactly when it is in the input and
      none of the three exclusion conditions holds for it. */
  lemma {:induction false} FilterMembership(rs: seq<Route>, role: Option<string>, isAuthenticated: bool, x: Route)
    ensures x in Filter(rs, role, isAuthenticated) <==> x in rs && Keep(x, role, isAuthenticated)
  {
    if rs != [] {
      FilterMembership(rs[1..], role, isAuthenticated, x);
      assert rs == [rs[0]] + rs[1..];
    }
  }

  lemma NavigationMembership(role: Option<string>, isAuthenticated: bool, x: Route)
    ensures x in GetNavigationRoutes(role, isAuthenticated) <==> x in AllRoutes && Keep(x, role, isAuthenticated)
  {
    FilterMembership(AllRoutes, role, isAuthenticated, x);
  }

  /** `sub` is `sup` with some elements deleted, the rest kept in order. */
  predicate IsSubsequence<T(==)>(sub: seq<T>, sup: seq<T>)
    decreases |sup|
  {
    if sub == [] then true
    else if sup == [] then false
    else if sub[0] == sup[0] then IsSubsequence(sub[1..], sup[1..])
    else IsSubsequence(sub, sup[1..])
  }

  lemma {:induction false} FilterIsSubsequence(rs: seq<Route>, role: Option<string>, isAuthenticated: bool)
    ensures IsSubsequence(Filter(rs, role, isAuthenticated), rs)
  {
    if rs != [] {
      FilterIsSubsequence(rs[1..], role, isAuthenticated);
      var rest := Filter(rs[1..], role, isAuthenticated);
      if !Keep(rs[0], role, isAuthenticated) {
        SubsequenceOfTail(rest, rs);
      }
    }
  }

  /** Adding an element in front of the larger sequence keeps a subsequence. */
  lemma {:induction false} SubsequenceOfTail<T>(sub: seq<T>, sup: seq<T>)
    requires sup != [] && IsSubsequence(sub, sup[1..])
    ensures IsSubsequence(sub, sup)
    decreases |sup|, 1
  {
    if sub != [] && sub[0] == sup[0] {
      SubsequenceDropHead(sub, sup[1..]);
    }
  }

  /** Removing the first element of a subsequence keeps it a subsequence. */
  lemma {:induction false} SubsequenceDropHead<T>(sub: seq<T>, t: seq<T>)
    requires sub != [] && IsSubsequence(sub, t)
    ensures IsSubsequence(sub[1..], t)
    decreases |t|, 2
  {
    if t == [] {
      assert false;
    } else if sub[0] == t[0] {
      SubsequenceOfTail(sub[1..], t);
    } else {
      SubsequenceDropHead(sub, t[1..]);
      SubsequenceOfTail(sub[1..], t);
    }
  }

  /** The navigation list is an order-preserving selection from the route table. */
  lemma NavigationIsSubsequence(role: Option<string>, isAuthenticated: bool)
    ensures IsSubsequence(GetNavigationRoutes(role, isAuthenticated), AllRoutes)
  {
    FilterIsSubsequence(AllRoutes, role, isAuthenticated);
  }

  /** A signed-in visitor never sees the Login or Sign Up entries. */
  lemma AuthenticatedHidesGuestPages(role: Option<string>, route: Route)
    requires route in GetNavigationRoutes(role, true)
    ensures route.name != "Login" && route.name != "Sign Up"
  {
    NavigationMembership(role, true, route);
  }

  /** Every kept route admits the visitor's role and login status. */
  lemma KeptRoutesAreAdmitted(role: Option<string>, isAuthenticated: bool, route: Route)
    requires route in GetNavigationRoutes(role, isAuthenticated)
    ensures route.meta.requiresAuth ==> isAuthenticated
    ensures route.meta.allowedRoles.Some? ==> Includes(route.meta.allowedRoles.value, role)
  {
    NavigationMembership(role, isAuthenticated, route);
  }

  /** The entry's contribution to the filter's result: itself when kept. */
  function Pick(route: Route, role: Option<string>, isAuthenticated: bool): seq<Route> {
    if Keep(route, role, isAuthenticated) then [route] else []
  }

  lemma FilterStep(rs: seq<Route>, k: nat, role: Option<string>, isAuthenticated: bool)
    requires k < |rs|
    ensures Filter(rs[k..], role, isAuthenticated)
         == Pick(rs[k], role, isAuthenticated) + Filter(rs[k + 1..], role, isAuthenticated)
  {
    assert rs[k..][0] == rs[k];
    assert rs[k..][1..] == rs[k + 1..];
  }

  /** The last four entries of the table, each kept or dropped on its own. */
  lemma TableFrom6Unrolled(role: Option<string>, isAuthenticated: bool)
    ensures Filter(AllRoutes[6..], role, isAuthenticated) == Pick(DashboardRoute, role, isAuthenticated) + (Pick(EventsRoute, role, isAuthenticated) + (Pick(UsersRoute, role, isAuthenticated) + (Pick(LogoutRoute, role, isAuthenticated))))
  {
    var t := AllRoutes;
    calc {
      Filter(t[6..], role, isAuthenticated);
      { FilterStep(t, 6, role, isAuthenticated); }
      Pick(DashboardRoute, role, isAuthenticated) + (Filter(t[7..], role, isAuthenticated));
      { FilterStep(t, 7, role, isAuthenticated); }
      Pick(DashboardRoute, role, isAuthenticated) + (Pick(EventsRoute, role, isAuthenticated) + (Filter(t[8..], role, isAuthenticated)));
      { FilterStep(t, 8, role, isAuthenticated); }
      Pick(DashboardRoute, role, isAuthenticated) + (Pick(EventsRoute, role, isAuthenticated) + (Pick(UsersRoute, role, isAuthenticated) + (Filter(t[9..], role, isAuthenticated))));
      { FilterStep(t, 9, role, isAuthenticated); }
      Pick(DashboardRoute, role, isAuthenticated) + (Pick(EventsRoute, role, isAuthenticated) + (Pick(UsersRoute, role, isAuthenticated) + (Pick(LogoutRoute, role, isAuthenticated) + (Filter(t[10..], role, isAuthenticated)))));
      { assert t[10..] == []; }
      Pick(DashboardRoute, role, isAuthenticated) + (Pick(EventsRoute, role, isAuthenticated) + (Pick(UsersRoute, role, isAuthenticated) + (Pick(LogoutRoute, role, isAuthenticated))));
    }
  }

  /** Entries 3 to 9 of the table, each kept or dropped on its own. */
  lemma TableFrom3Unrolled(role: Option<string>, isAuthenticated: bool)
    ensures Filter(AllRoutes[3..], role, isAuthenticated) == Pick(TicketsRoute, role, isAuthenticated) + (Pick(BookmarksRoute, role, isAuthenticated) + (Pick(SettingsRoute, role, isAuthenticated) + (Pick(DashboardRoute, role, isAuthenticated) + (Pick(EventsRoute, role, isAuthenticated) + (Pick(UsersRoute, role, isAuthenticated) + (Pick(LogoutRoute, role, isAuthenticated)))))))
  {
    var t := AllRoutes;
    calc {
      Filter(t[3..], role, isAuthenticated);
      { FilterStep(t, 3, role, isAuthenticated); }
      Pick(TicketsRoute, role, isAuthenticated) + (Filter(t[4..], role, isAuthenticated));
      { FilterStep(t, 4, role, isAuthenticated); }
      Pick(TicketsRoute, role, isAuthenticated) + (Pick(BookmarksRoute, role, isAuthenticated) + (Filter(t[5..], role, isAuthenticated)));
      { FilterStep(t, 5, role, isAuthenticated); }
      Pick(TicketsRoute, role, isAuthenticated) + (Pick(BookmarksRoute, role, isAuthenticated) + (Pick(SettingsRoute, role, isAuthenticated) + (Filter(t[6..], role, isAuthenticated))));
      { TableFrom6Unrolled(role, isAuthenticated); }
      Pick(TicketsRoute, role, isAuthenticated) + (Pick(BookmarksRoute, role, isAuthenticated) + (Pick(SettingsRoute, role, isAuthenticated) + (Pick(DashboardRoute, role, isAuthenticated) + (Pick(EventsRoute, role, isAuthenticated) + (Pick(UsersRoute, role, isAuthenticated) + (Pick(LogoutRoute, role, isAuthenticated)))))));
    }
  }

  /** The navigation list is the table's entries, each kept or dropped by the
      callback on its own. */
  lemma NavigationUnrolled(role: Option<string>, isAuthenticated: bool)
    ensures GetNavigationRoutes(role, isAuthenticated) == Pick(LoginRoute, role, isAuthenticated) + (Pick(SignUpRoute, role, isAuthenticated) + (Pick(MyEventsRoute, role, isAuthenticated) + (Pick(TicketsRoute, role, isAuthenticated) + (Pick(BookmarksRoute, role, isAuthenticated) + (Pick(SettingsRoute, role, isAuthenticated) + (Pick(DashboardRoute, role, isAuthenticated) + (Pick(EventsRoute, role, isAuthenticated) + (Pick(UsersRoute, role, isAuthenticated) + (Pick(LogoutRoute, role, isAuthenticated))))))))))
  {
    var t := AllRoutes;
    calc {
      GetNavigationRoutes(role, isAuthenticated);
      { assert t[0..] == t; }
      Filter(t[0..], role, isAuthenticated);
      { FilterStep(t, 0, role, isAuthenticated); }
      Pick(LoginRoute, role, isAuthenticated) + (Filter(t[1..], role, isAuthenticated));
      { FilterStep(t, 1, role, isAuthenticated); }
      Pick(LoginRoute, role, isAuthenticated) + (Pick(SignUpRoute, role, isAuthenticated) + (Filter(t[2..], role, isAuthenticated)));
      { FilterStep(t, 2, role, isAuthenticated); }
      Pick(LoginRoute, role, isAuthenticated) + (Pick(SignUpRoute, role, isAuthenticated) + (Pick(MyEventsRoute, role, isAuthenticated) + (Filter(t[3..], role, isAuthenticated))));
      { TableFrom3Unrolled(role, isAuthenticated); }
      Pick(LoginRoute, role, isAuthenticated) + (Pick(SignUpRoute, role, isAuthenticated) + (Pick(MyEventsRoute, role, isAuthenticated) + (Pick(TicketsRoute, role, isAuthenticated) + (Pick(BookmarksRoute, role, isAuthenticated) + (Pick(SettingsRoute, role, isAuthenticated) + (Pick(DashboardRoute, role, isAuthenticated) + (Pick(EventsRoute, role, isAuthenticated) + (Pick(UsersRoute, role, isAuthenticated) + (Pick(LogoutRoute, role, isAuthenticated))))))))));
    }
  }

  /** A signed-out visitor sees exactly the Login and Sign Up entries, whatever the role. */
  lemma GuestNavigation(role: Option<string>)
    ensures GetNavigationRoutes(role, false) == [LoginRoute, SignUpRoute]
  {
    NavigationUnrolled(role, false);
  }

  /** A signed-in "user" sees the user pages, Settings and Logout, in table order. */
  lemma UserNavigation()
    ensures GetNavigationRoutes(Some("user"), true) == [MyEventsRoute, TicketsRoute, BookmarksRoute, SettingsRoute, LogoutRoute]
  {
    NavigationUnrolled(Some("user"), true);
  }

  /** A signed-in "admin" sees Settings, the admin pages and Logout, in table order. */
  lemma AdminNavigation()
    ensures GetNavigationRoutes(Some("admin"), true) == [SettingsRoute, DashboardRoute, EventsRoute, UsersRoute, LogoutRoute]
  {
    NavigationUnrolled(Some("admin"), true);
  }

  /** A signed-in visitor whose role is named in no list (for instance `null`) sees nothing. */
  lemma UnlistedRoleNavigation(role: Option<string>)
    requires role.None? || role.value !in {"user", "admin"}
    ensures GetNavigationRoutes(role, true) == []
  {
    NavigationUnrolled(role, true);
  }
}
