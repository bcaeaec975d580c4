/**
 * The session token the backend issues (backend/utilService/jwt-token.go):
 * the claims of a JSON Web Token (RFC 7519) built by `GetToken`, and the
 * `exp` override `createJWTToken` performs before signing with HS256
 * (section 3.2 of RFC 7518).
 *
 * Signing is an oracle `sign(claims, key)`; each `time.Now()` reading is a
 * parameter giving Unix seconds.
 */
module JwtToken {
  import opened Values

  type Claims = map<string, Value>

  datatype SignOutcome = Signed(token: string) | SignFailed(error: string)

  /** `time.Hour * 48`, in seconds. */
  const Expiry: int := 48 * 60 * 60

  const HasuraNamespace := "https://hasura.io/jwt/claims"
  const AllowedRoles := Arr([Str("user"), Str("user-admin")])

  /** The fixed signing key. Its text is not reproduced: this placeholder
      stands for it, and the model depends on nothing but its being fixed. */
  const SecretKey := "hs256-signing-key-placeholder"

  /** The payload literal of `GetToken`, given the two clock readings
      (Unix seconds) taken while it is built. */
  function Payload(userId: string, role: string, issuedAt: int, payloadNow: int): Claims {
    map[
      "sub" := Str("12345"),
      "iat" := Num(issuedAt),
      "exp" := Num(payloadNow + Expiry),
      HasuraNamespace := Obj(map[
        "x-hasura-allowed-roles" := AllowedRoles,
        "x-hasura-default-role" := Str("user"),
        "x-hasura-user-id" := Str(userId),
        "x-hasura-role" := Str(role)
      ]),
      "metadata" := Obj(map["userId" := Str(userId)])
    ]
  }

  /** The claims `createJWTToken` signs: the payload with `exp` set to the
      expiration argument. */
  function WithExpiration(payload: Claims, tokenExpiration: int): (claims: Claims)
    ensures claims.Keys == payload.Keys + {"exp"}
    ensures claims["exp"] == Num(tokenExpiration)
    ensures forall k :: k in payload && k != "exp" ==> claims[k] == payload[k]
  {
    payload["exp" := Num(tokenExpiration)]
  }

  /** `createJWTToken`: the signed token, or "" and the signing error. */
  function CreateJwtToken(payload: Claims, secretKey: string, tokenExpiration: int,
                          sign: (Claims, string) -> SignOutcome): (string, Option<string>)
  {
    match sign(WithExpiration(payload, tokenExpiration), secretKey)
    case Signed(token) => (token, None)
    case SignFailed(error) => ("", Some(error))
  }

  /** `GetToken`, given its three clock readings: `issuedAt` for `iat`,
      `payloadNow` for the payload's own `exp`, and `expiryNow` for the
      expiration passed to `createJWTToken`. */
  function GetToken(userId: string, role: string, issuedAt: int, payloadNow: int, expiryNow: int,
                    sign: (Claims, string) -> SignOutcome): (string, Option<string>)
  {
    var tokenExpiration := expiryNow + Expiry;
    var (token, err) := CreateJwtToken(Payload(userId, role, issuedAt, payloadNow), SecretKey, tokenExpiration, sign);
    if err.Some? then ("", err) else (token, None)
  }

  /** The claims a token from `GetToken` carries. */
  function TokenClaims(userId: string, role: string, issuedAt: int, payloadNow: int, expiryNow: int): Claims {
    WithExpiration(Payload(userId, role, issuedAt, payloadNow), expiryNow + Expiry)
  }

  /** `createJWTToken` returns the signature of the payload with the new `exp`,
      and "" exactly when signing fails. */
  lemma CreateJwtTokenOutcome(payload: Claims, secretKey: string, tokenExpiration: int,
                              sign: (Claims, string) -> SignOutcome)
    ensures var (token, err) := CreateJwtToken(payload, secretKey, tokenExpiration, sign);
            var signed := sign(WithExpiration(payload, tokenExpiration), secretKey);
            (err.None? <==> signed.Signed?)
            && (signed.Signed? ==> token == signed.token)
            && (signed.SignFailed? ==> token == "" && err == Some(signed.error))
  {
  }

  /** `GetToken` signs exactly `TokenClaims` with the fixed key, and passes a
      signing error on with an empty token. */
  lemma GetTokenSignsClaims(userId: string, role: string, issuedAt: int, payloadNow: int, expiryNow: int,
                            sign: (Claims, string) -> SignOutcome)
    ensures var (token, err) := GetToken(userId, role, issuedAt, payloadNow, expiryNow, sign);
            var signed := sign(TokenClaims(userId, role, issuedAt, payloadNow, expiryNow), SecretKey);
            (signed.Signed? ==> token == signed.token && err.None?)
            && (signed.SignFailed? ==> token == "" && err == Some(signed.error))
  {
  }

  /** The claims of a session token: the user id appears both in the Hasura
      namespace and in the metadata, the role in the Hasura namespace; `sub`,
      the allowed roles and the default role are fixed; `iat` is `issuedAt`
      and `exp` is `expiryNow` plus 48 hours. */
  lemma TokenClaimsContents(userId: string, role: string, issuedAt: int, payloadNow: int, expiryNow: int)
    ensures var c := TokenClaims(userId, role, issuedAt, payloadNow, expiryNow);
            c.Keys == {"sub", "iat", "exp", HasuraNamespace, "metadata"}
            && c["sub"] == Str("12345")
            && c["iat"] == Num(issuedAt)
            && c["exp"] == Num(expiryNow + Expiry)
            && c[HasuraNamespace] == Obj(map[
                 "x-hasura-allowed-roles" := AllowedRoles,
                 "x-hasura-default-role" := Str("user"),
                 "x-hasura-user-id" := Str(userId),
                 "x-hasura-role" := Str(role)])
            && c["metadata"] == Obj(map["userId" := Str(userId)])
  {
  }

  /** The `exp` written in the payload literal never reaches the token: the
      claims do not depend on `payloadNow`. */
  lemma PayloadExpirationOverridden(userId: string, role: string, issuedAt: int, payloadNow: int, otherPayloadNow: int, expiryNow: int)
    ensures TokenClaims(userId, role, issuedAt, payloadNow, expiryNow) == TokenClaims(userId, role, issuedAt, otherPayloadNow, expiryNow)
  {
  }

  /** With a clock that does not run backwards the token lives at least 48
      hours, and exactly 48 hours when both readings agree. */
  lemma TokenLifetime(userId: string, role: string, issuedAt: int, payloadNow: int, expiryNow: int)
    requires issuedAt <= expiryNow
    ensures var c := TokenClaims(userId, role, issuedAt, payloadNow, expiryNow);
            c["exp"].Num? && c["iat"].Num?
            && c["exp"].n - c["iat"].n >= 172800
            && (issuedAt == expiryNow ==> c["exp"].n - c["iat"].n == 172800)
  {
    TokenClaimsContents(userId, role, issuedAt, payloadNow, expiryNow);
  }
}
