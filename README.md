# minab-event: access control, request options and backend helpers in Dafny

This project models the decision logic of the minab-event application, which has a Nuxt frontend and a Go backend. It covers these parts:

- **Route table and navigation filter** (`Routes`). This is the constant list of pages with their `requiresAuth` and `allowedRoles` metadata. `getNavigationRoutes` picks from it the entries a visitor may see.
- **Route middleware** (`AuthGuard`). It runs the store's `autoLogin`, then sends the visitor to "/login" or "/", or lets the navigation proceed.
- **Authentication store** (`Store`). The state has four fields: `token`, `id`, `role` and `user`. The model covers its getters, the setters, `logout`, and `autoLogin`. `autoLogin` pulls the user id out of the decoded token's `x-hasura-user-id` claim and checks `exp`. The store is a class whose methods are proved against functions on its state.
- **Apollo option builders** (`QueryComposable`, `MutationComposable`). These are the header records and option records that `useQueryComposable` and `useMutationComposable` build. They use JavaScript's `||`, `&&` and object-spread semantics, which `Values` models.
- **Backend middleware** (`Middlewares`):
  - `ApplyMiddleware`, the fold that wraps a handler in middlewares.
  - The CORS middleware: its three headers, and the preflight short-circuit.
  - The request logger.
  - The chain that `backend/main.go` builds for every route.
  - Handlers are values, so the order in which middlewares are layered can be observed. A base handler is described by its name, the `Header().Set` and `Header().Del` calls it makes, and the status it writes. A `ResponseWriter` class records the headers, the status and what ran.
- **`PublicID`** (`PublicId`). It generates an 18-character image identifier over a 64-character alphabet. `rand.Intn` is an oracle that answers below its bound.
- **Session-token claims** (`JwtToken`). This is the JSON Web Token (RFC 7519) payload that `GetToken` builds. `createJWTToken` overrides its `exp` claim before signing with HS256, which section 3.2 of RFC 7518 defines. The signing itself is an oracle.
- **Account-confirmation email** (`Email`). This covers the link, the HTML body, the Mailtrap payload, and the error handling `SendEmail` does around the HTTP call. The HTTP call is an oracle.
- **The frontend reading a backend token** (`Session`). Here the claims `GetToken` issues are fed to `autoLogin`.

External inputs become parameters:

| call in the source | parameter in the model |
|---|---|
| `jwt_decode` | a function from the token to `DecodeResult` |
| `Date.now()` | `now`, in milliseconds |
| each `time.Now()` in `GetToken` | `issuedAt` (jwt-token.go:23), `payloadNow` (line 24) and `expiryNow` (line 35), in Unix seconds |
| `rand.Intn` | `intn(call, bound)` |
| HMAC signing | `sign(claims, key)` |
| the Mailtrap request | `send(url, apiToken, data)` |

One consequence the model makes explicit is `Session.IssuedTokenWithoutSeparatorLogsOut`:

- `autoLogin` reads the user id as the text after an `=` in the claim.
- `GetToken` writes the bare user id into that claim.
- For an id without `=`, the call `split("=")[1].replace(...)` throws.
- So even a fresh, unexpired backend token ends in `logout`, and every protected route redirects to "/login".

## Model

| member | source | states |
|---|---|---|
| Routes.LoginRoute | frontend/routes.js:10-17 | the Login entry: path "/login", `requiresAuth` false, no `allowedRoles` |
| Routes.SignUpRoute | frontend/routes.js:18-25 | the Sign Up entry: path "/signup", `requiresAuth` false, no `allowedRoles` |
| Routes.MyEventsRoute | frontend/routes.js:26-34 | the My Events entry: path "/user/my-events", `requiresAuth` true, `allowedRoles` ["user"] |
| Routes.TicketsRoute | frontend/routes.js:35-43 | the Ticket Reservation entry: path "/user/tickets", `requiresAuth` true, `allowedRoles` ["user"] |
| Routes.BookmarksRoute | frontend/routes.js:44-52 | the Bookmarks entry: path "/user/bookmarks", `requiresAuth` true, `allowedRoles` ["user"] |
| Routes.SettingsRoute | frontend/routes.js:53-61 | the Settings entry: path "/user/settings", `requiresAuth` true, `allowedRoles` ["user", "admin"] |
| Routes.DashboardRoute | frontend/routes.js:63-71 | the Dashboard entry: path "/admin/dashboard", `requiresAuth` true, `allowedRoles` ["admin"] |
| Routes.EventsRoute | frontend/routes.js:72-80 | the Event Management entry: path "/admin/events", `requiresAuth` true, `allowedRoles` ["admin"] |
| Routes.UsersRoute | frontend/routes.js:81-89 | the Manage Users entry: path "/admin/users", `requiresAuth` true, `allowedRoles` ["admin"] |
| Routes.LogoutRoute | frontend/routes.js:90-98 | the Logout entry: path "/logout", `requiresAuth` true, `allowedRoles` ["user", "admin"] |
| Routes.AllRoutes | frontend/routes.js:1-99 | the exported `routes` array: the ten entries above in declaration order, each matching the source in name, path, `requiresAuth` and `allowedRoles` (the commented-out entry at lines 2-9 is not part of it); `Routes.GetNavigationRoutes` and `Routes.NavigationUnrolled` filter it |
| Routes.Keep | frontend/routes.js:103-114 | the filter callback with its three early returns in order; its meaning is stated by `Routes.FilterMembership` and `Routes.KeptRoutesAreAdmitted` |
| Routes.Filter | frontend/routes.js:102-115 | `routes.filter(...)`; its result never grows, and `Routes.FilterMembership` and `Routes.FilterIsSubsequence` characterise it |
| Routes.GetNavigationRoutes | frontend/routes.js:101-116 | `getNavigationRoutes(role, isAuthenticated)`; its exact results are stated by `Routes.GuestNavigation`, `Routes.UserNavigation`, `Routes.AdminNavigation` and `Routes.UnlistedRoleNavigation` |
| Routes.NavigationUnrolled | frontend/routes.js:10-115 | the navigation list is the ten table entries in order, each kept or dropped by the callback on its own |
| Routes.FilterMembership | frontend/routes.js:102-115 | a route is in the filtered list iff it is in the input and none of the three exclusion conditions holds for it |
| Routes.NavigationMembership | frontend/routes.js:101-116 | a route is in `getNavigationRoutes(role, isAuthenticated)` iff it is in the route table and the filter callback keeps it |
| Routes.FilterIsSubsequence | frontend/routes.js:102 | `filter` returns an order-preserving subsequence of its input |
| Routes.NavigationIsSubsequence | frontend/routes.js:101-102 | the navigation list is an order-preserving subsequence of the route table |
| Routes.AuthenticatedHidesGuestPages | frontend/routes.js:105-107 | a signed-in visitor never gets the Login or Sign Up entries |
| Routes.KeptRoutesAreAdmitted | frontend/routes.js:108-113 | every kept route either does not require authentication or the visitor is signed in; and if it lists `allowedRoles`, it lists the visitor's role |
| Routes.GuestNavigation | frontend/routes.js:10-114 | signed out, the list is exactly [Login, Sign Up] for every role |
| Routes.UserNavigation | frontend/routes.js:26-114 | signed in as "user", the list is exactly [My Events, Ticket Reservation, Bookmarks, Settings, Logout] |
| Routes.AdminNavigation | frontend/routes.js:53-114 | signed in as "admin", the list is exactly [Settings, Dashboard, Event Management, Manage Users, Logout] |
| Routes.UnlistedRoleNavigation | frontend/routes.js:105-113 | signed in with `null` or any role other than "user" and "admin", the list is empty |
| AuthGuard.Guard | frontend/middleware/auth.js:11-21 | the guard's decision on a route's meta and the store's getters; stated by `AuthGuard.GuardLoginFirst`, `AuthGuard.GuardRoleRedirect`, `AuthGuard.GuardMissingMeta` and `AuthGuard.GuardOutcomes` |
| AuthGuard.MiddlewareDecision | frontend/middleware/auth.js:8-21 | the guard applied to the store after `autoLogin`; stated by `AuthGuard.ExpiredTokenRedirectsToLogin`, `AuthGuard.NoTokenRedirectsToLogin` and `AuthGuard.RouteMiddleware` |
| AuthGuard.GuardLoginFirst | frontend/middleware/auth.js:14-21 | an unauthenticated visit to a route with `requiresAuth` goes to "/login", never "/", whatever its `allowedRoles` |
| AuthGuard.GuardRoleRedirect | frontend/middleware/auth.js:19-21 | when the login check passes and `allowedRoles` lacks the store's role, the guard redirects to "/", also on routes without `requiresAuth` |
| AuthGuard.GuardMissingMeta | frontend/middleware/auth.js:11-21 | a route without meta is treated as `{}` and always proceeds |
| AuthGuard.GuardOutcomes | frontend/middleware/auth.js:11-21 | the guard proceeds iff neither check fires, and otherwise only redirects to "/login" or "/" |
| AuthGuard.NavigationAgreesWithGuard | frontend/middleware/auth.js:14-21 | the guard lets a route through iff the navigation filter keeps it, except that the guard also admits a signed-in visitor to Login and Sign Up; every navigation entry passes the guard |
| AuthGuard.ExpiredTokenRedirectsToLogin | frontend/middleware/auth.js:8-16 | the decision reads the store after `autoLogin`: an expired token that passed the login check before `autoLogin` is sent to "/login" after it |
| AuthGuard.NoTokenRedirectsToLogin | frontend/middleware/auth.js:8-16 | without a token every protected route redirects to "/login" |
| AuthGuard.RouteMiddleware | frontend/middleware/auth.js:4-22 | the middleware leaves the store in the state `autoLogin` produces, and returns the guard's decision on that state |
| Store.State.IsAuthenticated | frontend/store/index.js:16 | `isAuthenticated` holds iff the token is neither `null` nor "" |
| Store.InitialState | frontend/store/index.js:8-13 | the initial token is the cookie when it is non-empty and otherwise `null`; id, role and user start `null` |
| Store.State.IsAdmin | frontend/store/index.js:17 | getter `isAdmin`, `role === "admin"`: the definition is the getter; `Store.RoleGetters` states that it and `isUser` never hold together |
| Store.State.IsUser | frontend/store/index.js:18 | getter `isUser`, `role === "user"`: the definition is the getter; `Store.RoleGetters` states that it and `isAdmin` never hold together |
| Store.LoggedOut | frontend/store/index.js:35-41 | the state `logout` leaves, every field `null`; stated by `Store.RoleGetters`, `Store.AuthStore.Logout` and the `Store.AutoLogin…` rows that end in it |
| Store.RoleGetters | frontend/store/index.js:17-18 | a state is never both admin and user; the logged-out state is neither admin nor user and is not authenticated |
| Store.Split | frontend/store/index.js:77 | `split` with a one-character separator; stated by `Store.SplitJoin` |
| Store.SplitJoin | frontend/store/index.js:77 | `split` has a one-character separator: joining its pieces again gives back the string, and no piece contains the separator |
| Store.StripClosingParen | frontend/store/index.js:77 | `replace(/\)$/, "")` removes exactly one trailing `)`, and only when there is one |
| Store.ExtractUserId | frontend/store/index.js:76-77 | the user-id extraction, `None` where it throws; stated by `Store.ExtractUserIdBetweenSeparators` and `Store.ExtractUserIdThrows` |
| Store.ClaimedUserId | frontend/store/index.js:70-77 | the claim lookup through the Hasura namespace followed by the extraction, `None` wherever a step throws (a missing namespace, a claim that is not a string, a claim without `=`); stated by `Store.AutoLoginDecodeFailure` and `Store.AutoLoginLive` |
| Store.ExpiresAfter | frontend/store/index.js:82 | `exp * 1000 > Date.now()` with JavaScript's coercion of `exp`; stated by `Store.AutoLoginExpired`, `Store.AutoLoginLive` and `Session.IssuedTokenExpiry` |
| Store.NotExpired | frontend/store/index.js:82 | the expiry check on the decoded payload; stated by `Store.AutoLoginExpired` and `Store.AutoLoginLive` |
| Store.AutoLoginSpec | frontend/store/index.js:61-95 | `autoLogin` as a function of the state; stated by `Store.AutoLoginWithoutToken`, `Store.AutoLoginDecodeFailure`, `Store.AutoLoginExpired`, `Store.AutoLoginLive`, `Store.AutoLoginOutcomes` and `Store.AutoLoginIdempotent`, and implemented by `Store.AuthStore.AutoLogin` |
| Store.ExtractUserIdBetweenSeparators | frontend/store/index.js:76-77 | the extracted id is the text between the first and second `=`, less one trailing `)`; when that text is empty, the whole claim |
| Store.ExtractUserIdThrows | frontend/store/index.js:76-91 | the extraction throws (which ends in `logout`) iff the claim has no `=` |
| Store.AutoLoginWithoutToken | frontend/store/index.js:63-94 | with no truthy token, `autoLogin` ends in the logged-out state |
| Store.AutoLoginDecodeFailure | frontend/store/index.js:64-91 | a decoding failure, a missing namespace or a non-string claim ends in the logged-out state |
| Store.AutoLoginExpired | frontend/store/index.js:82-87 | `exp * 1000 <= now` ends in the logged-out state |
| Store.AutoLoginLive | frontend/store/index.js:76-84 | with a well-formed claim and `exp * 1000 > now`, `autoLogin` sets `id` to the extracted id and changes nothing else |
| Store.AutoLoginOutcomes | frontend/store/index.js:61-95 | `autoLogin` either logs out, or keeps token, role and user and sets an id; it never makes an unauthenticated store authenticated |
| Store.AutoLoginIdempotent | frontend/store/index.js:61-95 | running `autoLogin` twice at the same time gives the same state as running it once |
| Store.AuthStore.constructor | frontend/store/index.js:8-13 | the new store's state is the initial state for the cookie |
| Store.AuthStore.SetToken | frontend/store/index.js:22-24 | only the token changes, to the argument |
| Store.AuthStore.SetRole | frontend/store/index.js:26-28 | only the role changes, to the argument |
| Store.AuthStore.SetId | frontend/store/index.js:30-33 | only the id changes, to the argument |
| Store.AuthStore.Logout | frontend/store/index.js:35-41 | all four fields become `null`, so the store is not authenticated; a second call gives the same state |
| Store.AuthStore.AutoLogin | frontend/store/index.js:61-95 | the store's new state is the `autoLogin` specification applied to its old state |
| QueryComposable.DefaultHeaders | frontend/composables/useQueryComposable.js:19-23 | the default headers; stated by `QueryComposable.UserIdHeaderDefault`, `QueryComposable.RoleHeaderDefault` and `QueryComposable.AuthorizationIffAuthenticated` |
| QueryComposable.DefaultContext | frontend/composables/useQueryComposable.js:18-24 | `defaultContext`, the headers under `headers`; stated by `QueryComposable.ContextDefault` and `QueryComposable.ContextMergeShallow` |
| QueryComposable.QueryOptions | frontend/composables/useQueryComposable.js:27-34 | `mergedOptions`; stated by `QueryComposable.FetchPolicyFixed`, `QueryComposable.ClientIdDefault`, `QueryComposable.ContextMergeShallow`, `QueryComposable.ContextDefault` and `QueryComposable.HeadersReplacedWholesale` |
| QueryComposable.QueryVariables | frontend/composables/useQueryComposable.js:37 | `{ ...variables }`; stated by `QueryComposable.VariablesCopied` |
| QueryComposable.UserIdHeaderDefault | frontend/composables/useQueryComposable.js:20 | `x-hasura-user-id` is the store's id, or "" when the id is `null` or "" |
| QueryComposable.RoleHeaderDefault | frontend/composables/useQueryComposable.js:21 | `x-hasura-role` is the store's role, or "anonymous" when the role is `null` or "" |
| QueryComposable.AuthorizationIffAuthenticated | frontend/composables/useQueryComposable.js:22 | an Authorization header is present iff the token is truthy, and then it is "Bearer " + token; no other header is set |
| QueryComposable.FetchPolicyFixed | frontend/composables/useQueryComposable.js:27-34 | the options have exactly `fetchPolicy`, `clientId` and `context`; `fetchPolicy` is "network-only" for every `additionalOptions` |
| QueryComposable.ClientIdDefault | frontend/composables/useQueryComposable.js:29 | `clientId` is the caller's value when truthy, else "default" |
| QueryComposable.ContextMergeShallow | frontend/composables/useQueryComposable.js:30-33 | the merged context has the caller's keys plus `headers`; every caller key wins; the default headers survive only when the caller gives none |
| QueryComposable.ContextDefault | frontend/composables/useQueryComposable.js:30-33 | without a truthy caller context, the context is the default one |
| QueryComposable.HeadersReplacedWholesale | frontend/composables/useQueryComposable.js:18-33 | caller-supplied `headers` replace the default headers entirely, so an authenticated store's Authorization header is dropped |
| QueryComposable.VariablesCopied | frontend/composables/useQueryComposable.js:37 | the query variables are a shallow copy of an object argument, and empty for `null` or `undefined` |
| MutationComposable.TemplateText | frontend/composables/useMutationComposable.js:23 | the text `${token}` produces: the token, or "null"; stated by `MutationComposable.HeadersPassThrough` |
| MutationComposable.DefaultHeaders | frontend/composables/useMutationComposable.js:20-24 | the default headers; stated by `MutationComposable.HeadersPassThrough` and `MutationComposable.AgreesWithQueryHeaders` |
| MutationComposable.DefaultContext | frontend/composables/useMutationComposable.js:19-25 | `defaultContext`, the headers under `headers`; stated by `MutationComposable.ContextMergeShallow` |
| MutationComposable.MutationOptions | frontend/composables/useMutationComposable.js:28-34 | `mergedOptions`; stated by `MutationComposable.OptionsShape` and `MutationComposable.ContextMergeShallow` |
| MutationComposable.HeadersPassThrough | frontend/composables/useMutationComposable.js:19-25 | the three headers are always present; id and role pass through unchanged, `null` included; Authorization is "Bearer " + token, or "Bearer null" without one |
| MutationComposable.OptionsShape | frontend/composables/useMutationComposable.js:28-34 | the options have exactly `fetchPolicy` ("network-only") and `context`, so other caller keys such as `clientId` are dropped |
| MutationComposable.ContextMergeShallow | frontend/composables/useMutationComposable.js:30-33 | the caller's context overrides the default context key by key |
| MutationComposable.AgreesWithQueryHeaders | frontend/composables/useMutationComposable.js:19-25 | mutation and query headers coincide for a store with a token, an id and a role; without a token the query sends no Authorization header and the mutation sends "Bearer null" |
| Middlewares.Apply | backend/middlewares/ApplyMiddleware.go:6-11 | `ApplyMiddleware` as a recursive fold; stated by `Middlewares.ApplyLayers` and `Middlewares.ApplyConcat`, and computed by the method `Middlewares.ApplyMiddleware` |
| Middlewares.ApplyMiddleware | backend/middlewares/ApplyMiddleware.go:6-11 | the loop gives `mn(…m1(h))`: the base handler is kept, the middlewares are stacked once each in list order, and the last one is outermost; an empty list leaves `h` unchanged |
| Middlewares.ApplyLayers | backend/middlewares/ApplyMiddleware.go:6-11 | the recursive fold stacks the given middlewares outside the handler's own layers, in list order, over the same base |
| Middlewares.ApplyConcat | backend/middlewares/ApplyMiddleware.go:7-10 | `Apply(Apply(h, a), b) == Apply(h, a ++ b)` |
| Middlewares.MainChain | backend/main.go:24-27 | the chain `ApplyMiddleware(controller, Logger, CorsMiddleware)` every route is registered with; stated by `Middlewares.MainChainShape`, `Middlewares.MainChainBehaviour` and `Middlewares.CorsValuesSurviveController` |
| Middlewares.MainChainShape | backend/main.go:24-27 | `ApplyMiddleware(controller, Logger, CorsMiddleware)` is CORS around Logger around the controller, so CORS sees each request first |
| Middlewares.SetHeader | backend/middlewares/cors.go:11-13 | `Header().Set(k, v)` on the exchange: the key gets exactly `[v]`, every other header, the status and the trace stay |
| Middlewares.DelHeader | backend/controller/auth-controller.go:43 | `Header().Del(k)`, as `http.Error` calls it: the key is removed, every other header, the status and the trace stay |
| Middlewares.PerformAll | backend/controller/auth-controller.go:57 | a controller's header calls in order: only the keys they touch can appear or change; every other header keeps its values |
| Middlewares.CorsHeaders | backend/middlewares/cors.go:11-13 | the three `Header().Set` calls of the CORS middleware; stated by `Middlewares.CorsHeadersSet` |
| Middlewares.WriteStatus | backend/middlewares/cors.go:17 | `WriteHeader(code)`, as the CORS middleware and the wrapping writer of logger.go:41-44 call it: only the first code is kept; stated by `Middlewares.PreflightShortCircuits` and `Middlewares.MainChainBehaviour` |
| Middlewares.Serve | backend/middlewares/cors.go:8-24 | serving a handler value: a base handler's header calls and status, or the CORS middleware, or the logger; stated by `Middlewares.PreflightShortCircuits`, `Middlewares.OtherMethodsForwarded`, `Middlewares.HeadersKeptUnlessTouched` and `Middlewares.LoggerLogsOnce` |
| Middlewares.ServeCors | backend/middlewares/cors.go:8-24 | `CorsMiddleware(next)`; stated by `Middlewares.CorsHeadersSet`, `Middlewares.PreflightShortCircuits` and `Middlewares.OtherMethodsForwarded` |
| Middlewares.ServeLogger | backend/middlewares/logger.go:10-32 | `Logger(next)`; stated by `Middlewares.LoggerLogsOnce` |
| Middlewares.ResponseWriter.constructor | backend/main.go:24-27 | the writer a request starts with: no headers, no status, nothing served and nothing logged |
| Middlewares.ResponseWriter.Del | backend/controller/auth-controller.go:43 | `Header().Del` removes the key and leaves other headers alone |
| Middlewares.ResponseWriter.Set | backend/middlewares/cors.go:11-13 | `Header().Set` replaces the key's values by the one value given and leaves other headers alone |
| Middlewares.ResponseWriter.WriteHeader | backend/middlewares/cors.go:17 | the first status written is kept and later calls have no effect |
| Middlewares.ServeHTTP | backend/middlewares/cors.go:8-24 | serving a handler changes the writer exactly as the serving specification says |
| Middlewares.CorsMiddleware | backend/middlewares/cors.go:8-24 | the method sets the three headers, then answers OPTIONS with 204 or calls `next` |
| Middlewares.LoggerMiddleware | backend/middlewares/logger.go:10-32 | the method calls `next`, then appends one log line with the captured status |
| Middlewares.CorsHeadersSet | backend/middlewares/cors.go:11-13 | for every method, the three CORS headers get their exact values; the values they already had are replaced; no other header, the status or the trace changes |
| Middlewares.PreflightShortCircuits | backend/middlewares/cors.go:16-19 | an OPTIONS request gets status 204 (unless one was already sent), and the wrapped handler does not run |
| Middlewares.OtherMethodsForwarded | backend/middlewares/cors.go:22 | any other method is served by the wrapped handler, with the same request, after the headers are set |
| Middlewares.HeadersKeptUnlessTouched | backend/middlewares/cors.go:11-22 | serving adds no header beyond the three CORS ones and those the base handler touches; every other header keeps its values; a CORS header already at its CORS value keeps it unless the base handler touches that key |
| Middlewares.LoggerLogsOnce | backend/middlewares/logger.go:10-32 | the logger adds exactly one line per request it sees, with the status its inner handler wrote or 200 |
| Middlewares.MainChainBehaviour | backend/main.go:24-27 | through the route chain: a preflight gets exactly the CORS headers and 204, the controller does not run and nothing is logged; any other request gets the CORS headers followed by the controller's header calls, runs the controller once and is logged once with its status |
| Middlewares.CorsValuesSurviveController | backend/main.go:24-27 | through the route chain, a controller that does not touch the CORS keys leaves all three CORS values in the response, next to its own headers and no others |
| Middlewares.HttpError | backend/controller/auth-controller.go:43 | `http.Error` of Go 1.22 and later as a base handler: it touches exactly Content-Length, Content-Type and X-Content-Type-Options, and writes the error code |
| Middlewares.SendTokenOk | backend/controller/auth-controller.go:57-58 | `sendToken`'s success path as a base handler: it touches only Content-Type and writes no explicit status |
| Middlewares.ErrorThroughMainChain | backend/controller/auth-controller.go:43 | an `http.Error` response through the route chain keeps Access-Control-Allow-Origin "*", has the plain-text Content-Type and no Content-Length, carries the error code and is logged with it |
| Middlewares.SendTokenThroughMainChain | backend/controller/auth-controller.go:57-58 | a successful `sendToken` response through the route chain has exactly the three CORS headers and Content-Type "application/json", and is logged with 200 |
| PublicId.IdLength | backend/utilService/image-public-id.go:10 | `length`, 18; `PublicId.PublicID` ensures the word has this many characters |
| PublicId.Chars | backend/utilService/image-public-id.go:11 | `chars`, the same 64-character text in the same order; stated by `PublicId.CharsRanked` and `PublicId.CharsAreBase64Url` |
| PublicId.CharsRanked | backend/utilService/image-public-id.go:11 | `chars` has 64 pairwise distinct URL-safe characters |
| PublicId.CharsAreBase64Url | backend/utilService/image-public-id.go:11 | a character is in `chars` iff it is in the URL- and filename-safe alphabet of section 5 of RFC 4648 |
| PublicId.PublicID | backend/utilService/image-public-id.go:8-18 | the word has exactly 18 characters; character k is `chars[intn(k, 64)]`, with every index in bounds; every character is URL-safe |
| PublicId.EveryIdReachable | backend/utilService/image-public-id.go:13-16 | every 18-character word over `chars` comes out of some in-range sequence of draws |
| JwtToken.Expiry | backend/utilService/jwt-token.go:24-35 | `time.Hour * 48` in seconds, 172800, added to the clock reading at lines 24 and 35; stated by `JwtToken.TokenClaimsContents` and `JwtToken.TokenLifetime` |
| JwtToken.Payload | backend/utilService/jwt-token.go:21-34 | the payload literal of `GetToken`; stated by `JwtToken.TokenClaimsContents` and `JwtToken.PayloadExpirationOverridden` |
| JwtToken.CreateJwtToken | backend/utilService/jwt-token.go:10-18 | `createJWTToken`; stated by `JwtToken.WithExpiration` and `JwtToken.CreateJwtTokenOutcome` |
| JwtToken.TokenClaims | backend/utilService/jwt-token.go:21-35 | the claims `GetToken` signs: the payload with `exp` replaced by `expiryNow` + 48 hours (line 12); stated by `JwtToken.TokenClaimsContents`, `JwtToken.PayloadExpirationOverridden` and `JwtToken.TokenLifetime` |
| JwtToken.GetToken | backend/utilService/jwt-token.go:20-41 | `GetToken`; stated by `JwtToken.GetTokenSignsClaims`, `JwtToken.TokenClaimsContents` and `JwtToken.TokenLifetime` |
| JwtToken.WithExpiration | backend/utilService/jwt-token.go:12 | the signed claims are the payload with `exp` set to `tokenExpiration`, replacing any earlier `exp`; all other claims are unchanged |
| JwtToken.CreateJwtTokenOutcome | backend/utilService/jwt-token.go:10-18 | there is no error iff signing succeeds, and then the token is the signature; on a signing error the token is "" with that error |
| JwtToken.GetTokenSignsClaims | backend/utilService/jwt-token.go:35-40 | `GetToken` signs exactly the token claims with the fixed key and passes a signing error on with "" |
| JwtToken.TokenClaimsContents | backend/utilService/jwt-token.go:21-36 | the token has exactly `sub` "12345", `iat` = first reading, `exp` = last reading + 172800, the Hasura claims (allowed roles ["user","user-admin"], default role "user", user id, role), and `metadata.userId` = user id |
| JwtToken.PayloadExpirationOverridden | backend/utilService/jwt-token.go:24 | the `exp` written in the payload literal never reaches the token: the claims do not depend on that clock reading |
| JwtToken.TokenLifetime | backend/utilService/jwt-token.go:23-35 | with `expiryNow` no earlier than `issuedAt`, exp − iat ≥ 172800, with equality when both readings agree |
| Email.HtmlHead | backend/utilService/index.go:101-120 | the template text before the only `%s`, ending in the button's `<a href="`; stated by `Email.HtmlRoundTrip` |
| Email.HtmlTail | backend/utilService/index.go:120-125 | the template text after the `%s`, starting with the button's closing quote; stated by `Email.HtmlRoundTrip` |
| Email.ConfirmationLink | backend/utilService/index.go:100 | the confirmation link; stated by `Email.LinkRoundTrip` |
| Email.ConfirmationHtml | backend/utilService/index.go:99-126 | `generateConfirmationEmailHTML`; stated by `Email.HtmlRoundTrip` and `Email.HtmlInjective` |
| Email.LinkRoundTrip | backend/utilService/index.go:100 | the link is "http://localhost:3000/verify-email?token=" followed by the token verbatim, and the token reads back from it |
| Email.HtmlRoundTrip | backend/utilService/index.go:99-126 | the HTML is the fixed template with the link as the only substituted text, inside the button's `href`; link and token read back from it |
| Email.HtmlInjective | backend/utilService/index.go:99-126 | different tokens give different email bodies |
| Email.EmailDataContents | backend/utilService/index.go:77-97 | the payload has exactly four keys: subject "Confirm Your Email", sender mailtrap@example.com / "Mailtrap Test", one recipient (the given address), and the confirmation HTML; the error is always nil |
| Email.PrepareEmailData | backend/utilService/index.go:77-97 | `prepareEmailData`; stated by `Email.EmailDataContents` |
| Email.ApiUrl | backend/utilService/index.go:12 | the Mailtrap endpoint `SendEmail` posts to; stated by `Email.SendEmailOutcome` |
| Email.SendEmail | backend/utilService/index.go:11-32 | `SendEmail` with the request as the `send` oracle; stated by `Email.SendEmailOutcome` |
| Email.Message | backend/utilService/index.go:16-28 | the text of each error `SendEmail` can return, `%w` keeping the cause's text; the reachable one is stated by `Email.SendEmailOutcome` |
| Email.SendEmailOutcome | backend/utilService/index.go:11-32 | both configuration constants are non-empty, so the "missing email API configuration" error cannot occur, nor can a preparation error; `SendEmail` fails iff the request fails, with that cause wrapped, and its message is "failed to send email: " followed by the cause |
| Session.SharedClaimNames | frontend/store/index.js:70-71 | the frontend reads the same namespace and claim name that the backend writes |
| Session.IssuedTokenExpiry | frontend/store/index.js:82 | the backend's `exp` in seconds, times 1000, compared with `now` in milliseconds: an issued token is unexpired iff `now` is before 48 hours after its last clock reading |
| Session.IssuedTokenWithoutSeparatorLogsOut | frontend/store/index.js:76-91 | a backend-issued token whose user id has no `=` makes `autoLogin` log out at any time, and the middleware then sends every protected route to "/login" |
| Session.IssuedTokenWithSeparatorSetsId | frontend/store/index.js:76-84 | an unexpired backend token whose user id is `before=between` sets the store's id to `between` less a trailing `)` |

## Left out

- **Numbers.** JavaScript numbers are modelled as integers: there are no fractions, no NaN and no infinities.
- Store.NotExpired: a string or array `exp` counts as expired. JavaScript would coerce a numeric string such as "5" to a number before the comparison.
- Values.OwnProps: spreading a string or an array contributes nothing. JavaScript would copy their index properties, so `{ ...variables }` for a string or array argument is not modelled.
- Store.State: each field holds only `null` or a string (the user record only `null` or an object). The setters of index.js:22-33 store any value, so a state holding `undefined`, for instance after `setToken(data?.login.token)` with no login data, is not modelled.
- MutationComposable.DefaultHeaders: for the same reason, the template literal's "Bearer undefined" (a token that is `undefined`) and `undefined` id and role headers are not modelled; only "Bearer null" and `null` values are.
- **Key order.** Objects and Go maps are finite maps, so the order of their keys is not modelled.
- **`additionalOptions` passed as `null`.** The options are modelled as an object. An explicit `null` argument makes the source throw, and that is not modelled.
- **Store side effects.**
  - `setUser` starts an asynchronous Apollo query and is not modelled; `autoLogin` is modelled up to `setId`.
  - Reading the `auth_token` cookie is the `cookie` parameter, and removing it in `logout` is not modelled.
  - `console.log` calls are not modelled.
- **Library wiring.** The Vue `ref` wrapper and the `useQuery` and `useMutation` calls, with the handles they return, are not modelled.
- **Route table.** The lazily imported page components in routes.js are not part of this model.
- **Handlers and responses.**
  - A base handler (one of the controllers) is modelled by its name, its `Header().Set` and `Header().Del` calls, and the status it writes, if any. The controllers' own work, including the response body, is not part of this model. Only `http.Error` and the success path of `sendToken` are spelled out as base handlers.
  - A header set after the status has been sent is recorded in the writer's header map all the same; Go keeps it out of the response. No modelled handler sets a header after writing a status.
  - Go's implicit 200 when a handler writes no status is not modelled (there the status stays `None`), and neither is header canonicalisation (the keys used are already canonical).
- Middlewares.LoggerMiddleware: the client address and the duration are left out of the log line. `fmt.Print` is modelled as appending the line to the writer's trace. The wrapping `loggingResponseWriter` is represented by the status that serving returns.
- **Randomness.** Reseeding `rand` from the clock and the quality of the random numbers are not modelled; `rand.Intn` is only an in-range oracle.
- **Signing.** HMAC-SHA256 signing is an oracle. The write into the caller's payload map at jwt-token.go:12 is modelled as a new map, since the payload is not read afterwards.
- JwtToken.SecretKey: the literal key at jwt-token.go:36 is not reproduced. A placeholder stands for it; nothing in the model depends on its text, so its length and strength are not stated.
- Email.ApiToken: the Mailtrap API token at index.go:13 is not reproduced. A non-empty placeholder stands for it, since the model only needs it to be non-empty.
- Middlewares.HttpError: follows the `http.Error` of Go 1.22 and later, which also deletes Content-Length. Earlier releases set only Content-Type and X-Content-Type-Options. The repository does not pin a Go version.
- **Sending email.** The HTTP request of `sendEmailRequest` (JSON encoding, headers, status handling) is the `send` oracle, and `SendEmail`'s `Printf` logging is not modelled.
- Email.ConfirmationHtml: `fmt.Sprintf` is modelled as putting the link in place of the template's only verb, `%s`. The template contains no other `%`.
- **Verification-token store.** None exists in the code: nothing issues, stores, checks or expires the token `SendEmail` receives, so no such store is modelled.
- **Server wiring.** `backend/main.go` is modelled only as far as the middleware chain its routes use. The remaining wiring (the health route, the GraphQL client, the listener) is not modelled.
