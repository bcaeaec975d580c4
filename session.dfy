/**
 * How the frontend reads the session token the backend issues: the claims
 * built by `GetToken` (backend/utilService/jwt-token.go) as seen by the
 * store's `autoLogin` (frontend/store/index.js) and, through it, by the
 * route middleware (frontend/middleware/auth.js).
 */
module Session {
  import opened Values
  import opened Store
  import Routes
  import AuthGuard
  import JwtToken

  /** The decoded payload of a token issued by `GetToken`. */
  function IssuedPayload(userId: string, role: string, issuedAt: int, payloadNow: int, expiryNow: int): Value {
    Obj(JwtToken.TokenClaims(userId, role, issuedAt, payloadNow, expiryNow))
  }

  /** Both sides name the Hasura claims namespace and the user-id claim alike. */
  lemma SharedClaimNames()
    ensures JwtToken.HasuraNamespace == Store.HasuraNamespace
    ensures "x-hasura-user-id" == Store.UserIdClaim
  {
  }

  /** The backend writes `exp` in seconds and the frontend compares it, times
      1000, with a time in milliseconds: an issued token counts as unexpired
      exactly before the 48 hours after the last clock reading are over. */
  lemma IssuedTokenExpiry(userId: string, role: string, issuedAt: int, payloadNow: int, expiryNow: int, now: int)
    ensures NotExpired(IssuedPayload(userId, role, issuedAt, payloadNow, expiryNow), now)
            <==> now < (expiryNow + 172800) * 1000
  {
    JwtToken.TokenClaimsContents(userId, role, issuedAt, payloadNow, expiryNow);
  }

  /** `autoLogin` looks for the user id after an `=` in the claim, but
      `GetToken` puts the bare id there. For an id without `=` the lookup
      throws, so a fresh, unexpired backend token still logs the user out,
      and every protected route then redirects to "/login". */
  lemma IssuedTokenWithoutSeparatorLogsOut(
      s: State, jwtDecode: string -> DecodeResult, now: int,
      userId: string, role: string, issuedAt: int, payloadNow: int, expiryNow: int, to: Routes.Meta)
    requires s.IsAuthenticated()
    requires jwtDecode(s.token.value) == Decoded(IssuedPayload(userId, role, issuedAt, payloadNow, expiryNow))
    requires '=' !in userId
    requires to.requiresAuth
    ensures AutoLoginSpec(s, jwtDecode, now) == LoggedOut
    ensures AuthGuard.MiddlewareDecision(s, Some(to), jwtDecode, now) == AuthGuard.NavigateTo("/login")
  {
    JwtToken.TokenClaimsContents(userId, role, issuedAt, payloadNow, expiryNow);
    var payload := IssuedPayload(userId, role, issuedAt, payloadNow, expiryNow);
    ExtractUserIdThrows(userId);
    assert ClaimedUserId(payload) == ExtractUserId(userId);
  }

  /** An issued token whose id has the form `before=between` (with no further
      `=`) keeps the session alive until it expires, with `between`, less a
      trailing `)`, as the store's id. */
  lemma IssuedTokenWithSeparatorSetsId(
      s: State, jwtDecode: string -> DecodeResult, now: int,
      before: string, between: string, role: string, issuedAt: int, payloadNow: int, expiryNow: int)
    requires s.IsAuthenticated()
    requires '=' !in before && '=' !in between
    requires StripClosingParen(between) != ""
    requires jwtDecode(s.token.value) == Decoded(IssuedPayload(before + "=" + between, role, issuedAt, payloadNow, expiryNow))
    requires now < (expiryNow + 172800) * 1000
    ensures AutoLoginSpec(s, jwtDecode, now) == s.(id := Some(StripClosingParen(between)))
  {
    var userId := before + "=" + between;
    JwtToken.TokenClaimsContents(userId, role, issuedAt, payloadNow, expiryNow);
    IssuedTokenExpiry(userId, role, issuedAt, payloadNow, expiryNow, now);
    ExtractUserIdBetweenSeparators(before, between, []);
    assert userId + [] == userId;
    var payload := IssuedPayload(userId, role, issuedAt, payloadNow, expiryNow);
    assert ClaimedUserId(payload) == ExtractUserId(userId);
  }
}
