/**
 * The frontend's authentication store (frontend/store/index.js): four fields,
 * three getters, setters, `logout` and `autoLogin`.
 *
 * `jwt_decode` is a parameter of `AutoLogin` (a total function from the token
 * to what decoding produced) and `Date.now()` is the parameter `now`, in
 * milliseconds.
 */
module Store {
  import opened Values

  /** The user row that the asynchronous `setUser` query would store. */
  type UserRecord = Object

  /** The store's state; `None` is JavaScript's `null`. */
  datatype State = State(token: Option<string>, id: Option<string>, role: Option<string>, user: Option<UserRecord>)
  {
    /** Getter `isAuthenticated`: `!!state.token`. */
    function IsAuthenticated(): (r: bool)
      ensures r <==> token != None && token != Some("")
    {
      match token
      case None => false
      case Some(t) => |t| > 0
    }

    /** Getter `isAdmin`: `state.role === "admin"`. */
    predicate IsAdmin() {
      role == Some("admin")
    }

    /** Getter `isUser`: `state.role === "user"`. */
    predicate IsUser() {
      role == Some("user")
    }
  }

  /** The state `logout` leaves behind. */
  const LoggedOut := State(None, None, None, None)

  /** The initial state: `Cookies.get("auth_token") || null`, everything else `null`.
      `cookie` is what the cookie jar returns (`None` when there is no cookie). */
  function InitialState(cookie: Option<string>): (s: State)
    ensures s.id == None && s.role == None && s.user == None
    ensures s.IsAuthenticated() <==> cookie.Some? && cookie.value != ""
    ensures s.IsAuthenticated() ==> s.token == cookie
    ensures !s.IsAuthenticated() ==> s == LoggedOut
  {
    var token := if cookie.Some? && cookie.value != "" then cookie else None;
    State(token, None, None, None)
  }

  /** The role getters exclude each other, and the logged-out state satisfies
      none of the getters. */
  lemma RoleGetters(s: State)
    ensures !(s.IsAdmin() && s.IsUser())
    ensures !LoggedOut.IsAdmin() && !LoggedOut.IsUser() && !LoggedOut.IsAuthenticated()
  {
  }

  // ---------------------------------------------------------------------------
  // Parsing the user id out of the `x-hasura-user-id` claim.

  /** `s.split(sep)` for a one-character separator: the pieces between the
      separators, in order; there is always at least one piece. */
  function Split(s: string, sep: char): (pieces: seq<string>)
    ensures |pieces| >= 1
  {
    if s == [] then [""]
    else if s[0] == sep then [""] + Split(s[1..], sep)
    else
      var rest := Split(s[1..], sep);
      [[s[0]] + rest[0]] + rest[1..]
  }

  /** `pieces.join(sep)`. */
  function Join(pieces: seq<string>, sep: char): string
    requires |pieces| >= 1
  {
    if |pieces| == 1 then pieces[0] else pieces[0] + [sep] + Join(pieces[1..], sep)
  }

  /** Splitting and joining again gives back the original string, and no piece
      contains the separator. */
  lemma {:induction false} SplitJoin(s: string, sep: char)
    ensures Join(Split(s, sep), sep) == s
    ensures forall k :: 0 <= k < |Split(s, sep)| ==> sep !in Split(s, sep)[k]
  {
    if s != [] {
      SplitJoin(s[1..], sep);
      var rest := Split(s[1..], sep);
      if s[0] == sep {
        assert Split(s, sep) == [""] + rest;
        assert ([""] + rest)[1..] == rest;
        assert s == [] + [sep] + s[1..];
      } else {
        var pieces := [[s[0]] + rest[0]] + rest[1..];
        assert Split(s, sep) == pieces;
        if |rest| == 1 {
          assert s == [s[0]] + s[1..];
        } else {
          assert pieces[1..] == rest[1..];
          assert Join(rest, sep) == rest[0] + [sep] + Join(rest[1..], sep);
          assert s == [s[0]] + s[1..];
        }
        forall k | 0 <= k < |pieces| ensures sep !in pieces[k] {
          if k == 0 {
            assert sep !in rest[0];
          } else {
            assert pieces[k] == rest[k];
          }
        }
      }
    }
  }

  /** A string without the separator splits into itself alone. */
  lemma {:induction false} SplitWithoutSeparator(s: string, sep: char)
    requires sep !in s
    ensures Split(s, sep) == [s]
  {
    if s != [] {
      assert sep !in s[1..];
      SplitWithoutSeparator(s[1..], sep);
      assert [s[0]] + s[1..] == s;
    }
  }

  /** Text up to the first separator is the first piece; the rest splits on its own. */
  lemma {:induction false} SplitAtFirstSeparator(a: string, sep: char, z: string)
    requires sep !in a
    ensures Split(a + [sep] + z, sep) == [a] + Split(z, sep)
  {
    if a == [] {
      assert a + [sep] + z == [sep] + z;
      assert ([sep] + z)[1..] == z;
    } else {
      var s := a + [sep] + z;
      assert s[0] == a[0] && s[1..] == a[1..] + [sep] + z;
      assert sep !in a[1..];
      SplitAtFirstSeparator(a[1..], sep, z);
      assert [a[0]] + a[1..] == a;
    }
  }

  /** With a separator present there are at least two pieces. */
  lemma SplitHasSecondPiece(s: string, sep: char)
    requires sep in s
    ensures |Split(s, sep)| >= 2
  {
    var i :| 0 <= i < |s| && s[i] == sep;
    var j := FirstIndex(s, sep, i);
    assert s == s[..j] + [sep] + s[j + 1..];
    SplitAtFirstSeparator(s[..j], sep, s[j + 1..]);
  }

  /** The first position of `sep` in `s`, given that position `i` holds it. */
  lemma {:induction false} FirstIndex(s: string, sep: char, i: nat) returns (j: nat)
    requires i < |s| && s[i] == sep
    ensures j <= i && s[j] == sep && sep !in s[..j]
  {
    if sep in s[..i] {
      var i' :| 0 <= i' < i && s[..i][i'] == sep;
      j := FirstIndex(s, sep, i');
    } else {
      j := i;
    }
  }

  /** `.replace(/\)$/, "")`: drop one `)` at the very end, if there is one. */
  function StripClosingParen(s: string): (r: string)
    ensures |s| > 0 && s[|s| - 1] == ')' ==> r + [')'] == s
    ensures !(|s| > 0 && s[|s| - 1] == ')') ==> r == s
  {
    if |s| > 0 && s[|s| - 1] == ')' then s[..|s| - 1] else s
  }

  /** `userIdClaim.split("=")[1].replace(/\)$/, "") || userIdClaim`; `None` when
      the claim has no `=`, where `undefined.replace` throws. */
  function ExtractUserId(claim: string): Option<string> {
    var pieces := Split(claim, '=');
    if |pieces| < 2 then None
    else
      var trimmed := StripClosingParen(pieces[1]);
      Some(if trimmed == "" then claim else trimmed)
  }

  /** The user id is the text between the first and the second `=` (or the end),
      less one closing parenthesis; when that is empty, the whole claim. */
  lemma ExtractUserIdBetweenSeparators(before: string, between: string, after: string)
    requires '=' !in before && '=' !in between
    requires after == [] || after[0] == '='
    ensures var claim := before + "=" + between + after;
            var trimmed := StripClosingParen(between);
            ExtractUserId(claim) == Some(if trimmed == "" then claim else trimmed)
  {
    var claim := before + "=" + between + after;
    assert claim == before + ['='] + (between + after);
    SplitAtFirstSeparator(before, '=', between + after);
    if after == [] {
      assert between + after == between;
      SplitWithoutSeparator(between, '=');
    } else {
      assert between + after == between + ['='] + after[1..];
      SplitAtFirstSeparator(between, '=', after[1..]);
    }
  }

  /** A claim without `=` makes the extraction throw; a claim with one never does. */
  lemma ExtractUserIdThrows(claim: string)
    ensures ExtractUserId(claim).None? <==> '=' !in claim
  {
    if '=' in claim {
      SplitHasSecondPiece(claim, '=');
    } else {
      SplitWithoutSeparator(claim, '=');
    }
  }

  // ---------------------------------------------------------------------------
  // Reading the decoded token.

  /** What `jwt_decode(token)` produced: the claims object, or a thrown error. */
  datatype DecodeResult = DecodeFailed | Decoded(payload: Value)

  const HasuraNamespace := "https://hasura.io/jwt/claims"
  const UserIdClaim := "x-hasura-user-id"

  /** `decoded[HasuraNamespace][UserIdClaim]` followed by the extraction; `None`
      whenever one of these steps throws (a missing namespace, or a claim that is
      not a string and so has no `split`). */
  function ClaimedUserId(payload: Value): Option<string> {
    match Member(payload, HasuraNamespace)
    case None => None
    case Some(namespace) =>
      match Member(namespace, UserIdClaim)
      case Some(Str(claim)) => ExtractUserId(claim)
      case _ => None
  }

  /** `value * 1000 > now` with JavaScript's coercion of `exp`: `null` and
      booleans become numbers, `undefined` and objects become NaN, for which the
      comparison is false. */
  predicate ExpiresAfter(exp: Value, now: int) {
    match exp
    case Num(n) => n * 1000 > now
    case Null => 0 > now
    case Bool(b) => (if b then 1000 else 0) > now
    case _ => false
  }

  /** `decoded.exp * 1000 > Date.now()`. */
  predicate NotExpired(payload: Value, now: int) {
    match Member(payload, "exp")
    case Some(exp) => ExpiresAfter(exp, now)
    case None => false
  }

  /** The state `autoLogin` leaves behind. Every failure (no token, a decoding
      error, a missing or malformed claim, an expired token) ends in `logout`;
      success sets only `id` (the `setUser` query it then starts is left out). */
  function AutoLoginSpec(s: State, jwtDecode: string -> DecodeResult, now: int): State {
    if !s.IsAuthenticated() then LoggedOut
    else
      match jwtDecode(s.token.value)
      case DecodeFailed => LoggedOut
      case Decoded(payload) =>
        match ClaimedUserId(payload)
        case None => LoggedOut
        case Some(userId) => if NotExpired(payload, now) then s.(id := Some(userId)) else LoggedOut
  }

  /** Without a (truthy) token, `autoLogin` logs out. */
  lemma AutoLoginWithoutToken(s: State, jwtDecode: string -> DecodeResult, now: int)
    requires !s.IsAuthenticated()
    ensures AutoLoginSpec(s, jwtDecode, now) == LoggedOut
  {
  }

  /** A token whose decoding or claim lookup throws leads to `logout`. */
  lemma AutoLoginDecodeFailure(s: State, jwtDecode: string -> DecodeResult, now: int)
    requires s.IsAuthenticated()
    requires jwtDecode(s.token.value).DecodeFailed?
          || ClaimedUserId(jwtDecode(s.token.value).payload).None?
    ensures AutoLoginSpec(s, jwtDecode, now) == LoggedOut
  {
  }

  /** An expired token (`exp * 1000 <= now`) leads to `logout`. */
  lemma AutoLoginExpired(s: State, jwtDecode: string -> DecodeResult, now: int, exp: int)
    requires s.IsAuthenticated()
    requires jwtDecode(s.token.value).Decoded?
    requires Member(jwtDecode(s.token.value).payload, "exp") == Some(Num(exp))
    requires exp * 1000 <= now
    ensures AutoLoginSpec(s, jwtDecode, now) == LoggedOut
  {
  }

  /** A live token sets `id` to the extracted user id and changes nothing else. */
  lemma AutoLoginLive(s: State, jwtDecode: string -> DecodeResult, now: int, exp: int, claim: string)
    requires s.IsAuthenticated()
    requires jwtDecode(s.token.value).Decoded?
    requires var payload := jwtDecode(s.token.value).payload;
             payload.Obj? && HasuraNamespace in payload.fields && "exp" in payload.fields
             && payload.fields["exp"] == Num(exp)
             && Member(payload.fields[HasuraNamespace], UserIdClaim) == Some(Str(claim))
    requires '=' in claim
    requires exp * 1000 > now
    ensures ExtractUserId(claim).Some?
    ensures AutoLoginSpec(s, jwtDecode, now) == s.(id := ExtractUserId(claim))
  {
    ExtractUserIdThrows(claim);
  }

  /** `autoLogin` either logs out or keeps token, role and user and sets an id. */
  lemma AutoLoginOutcomes(s: State, jwtDecode: string -> DecodeResult, now: int)
    ensures var r := AutoLoginSpec(s, jwtDecode, now);
            r == LoggedOut || (r.token == s.token && r.role == s.role && r.user == s.user && r.id.Some?)
    ensures AutoLoginSpec(s, jwtDecode, now).IsAuthenticated() ==> s.IsAuthenticated()
  {
  }

  /** Running `autoLogin` again on the same clock reading changes nothing more. */
  lemma AutoLoginIdempotent(s: State, jwtDecode: string -> DecodeResult, now: int)
    ensures AutoLoginSpec(AutoLoginSpec(s, jwtDecode, now), jwtDecode, now) == AutoLoginSpec(s, jwtDecode, now)
  {
  }

  // ---------------------------------------------------------------------------
  // The store object.

  class AuthStore {
    var token: Option<string>
    var id: Option<string>
    var role: Option<string>
    var user: Option<UserRecord>

    function Snapshot(): State
      reads this
    {
      State(token, id, role, user)
    }

    constructor (cookie: Option<string>)
      ensures Snapshot() == InitialState(cookie)
    {
      token := if cookie.Some? && cookie.value != "" then cookie else None;
      id := None;
      role := None;
      user := None;
    }

    method SetToken(t: Option<string>)
      modifies this
      ensures Snapshot() == old(Snapshot()).(token := t)
    {
      token := t;
    }

    method SetRole(r: Option<string>)
      modifies this
      ensures Snapshot() == old(Snapshot()).(role := r)
    {
      role := r;
    }

    method SetId(i: Option<string>)
      modifies this
      ensures Snapshot() == old(Snapshot()).(id := i)
    {
      id := i;
    }

    /** Clears all four fields (the removal of the `auth_token` cookie is left out). */
    method Logout()
      modifies this
      ensures Snapshot() == LoggedOut
      ensures !Snapshot().IsAuthenticated()
    {
      token := None;
      user := None;
      id := None;
      role := None;
    }

    method AutoLogin(jwtDecode: string -> DecodeResult, now: int)
      modifies this
      ensures Snapshot() == AutoLoginSpec(old(Snapshot()), jwtDecode, now)
    {
      if token.Some? && token.value != "" {
        match jwtDecode(token.value)
        case DecodeFailed =>
          Logout();
        case Decoded(payload) =>
          var userId := ClaimedUserId(payload);
          if userId.None? {
            Logout();
          } else if NotExpired(payload, now) {
            SetId(userId);
          } else {
            Logout();
          }
      } else {
        Logout();
      }
    }
  }
}
