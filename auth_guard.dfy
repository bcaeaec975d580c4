/**
 * The route middleware (frontend/middleware/auth.js): it runs the store's
 * `autoLogin`, then decides whether to send the visitor to "/login", to "/",
 * or to let the navigation proceed.
 */
module AuthGuard {
  import opened Values
  import opened Routes
  import opened Store

  /** What the middleware returns: nothing, or `navigateTo(path)`. */
  datatype Decision = Proceed | NavigateTo(path: string)

  /** The redirect decision, read from `to.meta` (`None` when the route has no
      meta, which is treated as `{}`) and the store after `autoLogin`. */
  function Guard(to: Option<Meta>, isAuthenticated: bool, role: Option<string>): Decision {
    var meta := if to.Some? then to.value else Meta(false, None);
    if meta.requiresAuth && !isAuthenticated then NavigateTo("/login")
    else if !RoleAllowed(meta, role) then NavigateTo("/")
    else Proceed
  }

  /** An unauthenticated visit to a route that needs authentication goes to
      "/login", whatever the role restrictions: the login check comes first. */
  lemma GuardLoginFirst(meta: Meta, role: Option<string>)
    requires meta.requiresAuth
    ensures Guard(Some(meta), false, role) == NavigateTo("/login")
  {
  }

  /** A route that lists roles but not the visitor's role sends the visitor to "/",
      also when the route does not require authentication. */
  lemma GuardRoleRedirect(meta: Meta, isAuthenticated: bool, role: Option<string>)
    requires !meta.requiresAuth || isAuthenticated
    requires meta.allowedRoles.Some? && !Includes(meta.allowedRoles.value, role)
    ensures Guard(Some(meta), isAuthenticated, role) == NavigateTo("/")
  {
  }

  /** A route without meta never redirects. */
  lemma GuardMissingMeta(isAuthenticated: bool, role: Option<string>)
    ensures Guard(None, isAuthenticated, role) == Proceed
  {
  }

  /** The guard proceeds exactly when neither check fires; it only ever
      redirects to "/login" or "/". */
  lemma GuardOutcomes(meta: Meta, isAuthenticated: bool, role: Option<string>)
    ensures Guard(Some(meta), isAuthenticated, role) == Proceed
        <==> (!meta.requiresAuth || isAuthenticated) && RoleAllowed(meta, role)
    ensures Guard(Some(meta), isAuthenticated, role) in {Proceed, NavigateTo("/login"), NavigateTo("/")}
  {
  }

  /** Every entry of the navigation list leads to a page the guard lets through;
      the guard additionally admits Login and Sign Up for a signed-in visitor,
      which the navigation list hides. */
  lemma NavigationAgreesWithGuard(route: Route, role: Option<string>, isAuthenticated: bool)
    ensures Guard(Some(route.meta), isAuthenticated, role) == Proceed
        <==> Keep(route, role, isAuthenticated) || (isAuthenticated && IsGuestPage(route) && RoleAllowed(route.meta, role))
    ensures route in GetNavigationRoutes(role, isAuthenticated) ==> Guard(Some(route.meta), isAuthenticated, role) == Proceed
  {
    NavigationMembership(role, isAuthenticated, route);
  }

  /** The whole middleware on a store state: `autoLogin` first, then the decision
      on the state it leaves. */
  function MiddlewareDecision(s: State, to: Option<Meta>, jwtDecode: string -> DecodeResult, now: int): Decision {
    var after := AutoLoginSpec(s, jwtDecode, now);
    Guard(to, after.IsAuthenticated(), after.role)
  }

  /** The decision reads the store after `autoLogin`: a store that held a token
      which turns out to be expired is sent to "/login" on a protected route. */
  lemma ExpiredTokenRedirectsToLogin(s: State, to: Meta, jwtDecode: string -> DecodeResult, now: int, exp: int)
    requires s.IsAuthenticated() && to.requiresAuth
    requires jwtDecode(s.token.value).Decoded?
    requires Member(jwtDecode(s.token.value).payload, "exp") == Some(Num(exp))
    requires exp * 1000 <= now
    ensures Guard(Some(to), s.IsAuthenticated(), s.role) != NavigateTo("/login")
    ensures MiddlewareDecision(s, Some(to), jwtDecode, now) == NavigateTo("/login")
  {
    AutoLoginExpired(s, jwtDecode, now, exp);
  }

  /** Without a token, every protected route redirects to "/login". */
  lemma NoTokenRedirectsToLogin(s: State, to: Meta, jwtDecode: string -> DecodeResult, now: int)
    requires !s.IsAuthenticated() && to.requiresAuth
    ensures MiddlewareDecision(s, Some(to), jwtDecode, now) == NavigateTo("/login")
  {
    AutoLoginWithoutToken(s, jwtDecode, now);
  }

  /** The middleware as the router runs it on the shared store. */
  method RouteMiddleware(store: AuthStore, to: Option<Meta>, jwtDecode: string -> DecodeResult, now: int)
    returns (d: Decision)
    modifies store
    ensures store.Snapshot() == AutoLoginSpec(old(store.Snapshot()), jwtDecode, now)
    ensures d == MiddlewareDecision(old(store.Snapshot()), to, jwtDecode, now)
  {
    store.AutoLogin(jwtDecode, now);
    var meta := if to.Some? then to.value else Meta(false, None);
    if meta.requiresAuth && !store.Snapshot().IsAuthenticated() {
      return NavigateTo("/login");
    }
    if meta.allowedRoles.Some? && !Includes(meta.allowedRoles.value, store.role) {
      return NavigateTo("/");
    }
    d := Proceed;
  }
}
