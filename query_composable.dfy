/**
 * The option records `useQueryComposable` builds before handing them to
 * Apollo's `useQuery` (frontend/composables/useQueryComposable.js).
 * The store is read as a `Store.State`; `additionalOptions` is an object.
 */
module QueryComposable {
  import opened Values
  import opened Store

  const UserIdHeader := "x-hasura-user-id"
  const RoleHeader := "x-hasura-role"
  const AuthorizationHeader := "Authorization"

  /** `defaultContext.headers`: the id or "", the role or "anonymous", and an
      Authorization header only when there is a (truthy) token. */
  function DefaultHeaders(s: State): Object {
    var authorization := And(FromOption(s.token), Obj(map[AuthorizationHeader := Str("Bearer " + BearerText(s.token))]));
    Spread(map[UserIdHeader := Or(FromOption(s.id), Str("")), RoleHeader := Or(FromOption(s.role), Str("anonymous"))],
           authorization)
  }

  /** The text `${token}` produces inside "Bearer …" for a truthy token. */
  function BearerText(token: Option<string>): string {
    if token.Some? then token.value else ""
  }

  function DefaultContext(s: State): Object {
    map["headers" := Obj(DefaultHeaders(s))]
  }

  /** `mergedOptions`. */
  function QueryOptions(s: State, additionalOptions: Object): Object {
    map[
      "fetchPolicy" := Str("network-only"),
      "clientId" := Or(Get(additionalOptions, "clientId"), Str("default")),
      "context" := Obj(Spread(DefaultContext(s), Or(Get(additionalOptions, "context"), Obj(map[]))))
    ]
  }

  /** `{ ...variables }`, the value wrapped in `ref` for the query. */
  function QueryVariables(variables: Value): Object {
    OwnProps(variables)
  }

  /** The user-id header is the store's id, or "" when the id is null or empty. */
  lemma UserIdHeaderDefault(s: State)
    ensures UserIdHeader in DefaultHeaders(s)
    ensures DefaultHeaders(s)[UserIdHeader] == if s.id.Some? && s.id.value != "" then Str(s.id.value) else Str("")
  {
  }

  /** The role header is the store's role, or "anonymous" when the role is null or empty. */
  lemma RoleHeaderDefault(s: State)
    ensures RoleHeader in DefaultHeaders(s)
    ensures DefaultHeaders(s)[RoleHeader] == if s.role.Some? && s.role.value != "" then Str(s.role.value) else Str("anonymous")
  {
  }

  /** The Authorization header is present exactly when the store is authenticated,
      and then it carries "Bearer " followed by the token. */
  lemma AuthorizationIffAuthenticated(s: State)
    ensures AuthorizationHeader in DefaultHeaders(s) <==> s.IsAuthenticated()
    ensures s.IsAuthenticated() ==> DefaultHeaders(s)[AuthorizationHeader] == Str("Bearer " + s.token.value)
    ensures DefaultHeaders(s).Keys <= {UserIdHeader, RoleHeader, AuthorizationHeader}
  {
  }

  /** The fetch policy is fixed, whatever the caller passes; the options have
      exactly three keys. */
  lemma FetchPolicyFixed(s: State, additionalOptions: Object)
    ensures QueryOptions(s, additionalOptions).Keys == {"fetchPolicy", "clientId", "context"}
    ensures QueryOptions(s, additionalOptions)["fetchPolicy"] == Str("network-only")
  {
  }

  /** `clientId` is the caller's when truthy, "default" otherwise. */
  lemma ClientIdDefault(s: State, additionalOptions: Object)
    ensures var clientId := Get(additionalOptions, "clientId");
            QueryOptions(s, additionalOptions)["clientId"] == if Truthy(clientId) then clientId else Str("default")
  {
  }

  /** The context merge is shallow: every key of the caller's context wins, and
      the default headers survive only when the caller's context has no `headers`. */
  lemma ContextMergeShallow(s: State, additionalOptions: Object, extra: Object)
    requires Get(additionalOptions, "context") == Obj(extra)
    ensures var context := QueryOptions(s, additionalOptions)["context"];
            context.Obj?
            && context.fields.Keys == extra.Keys + {"headers"}
            && (forall k :: k in extra ==> context.fields[k] == extra[k])
            && ("headers" !in extra ==> context.fields["headers"] == Obj(DefaultHeaders(s)))
  {
  }

  /** Without a (truthy) caller context the context is the default one. */
  lemma ContextDefault(s: State, additionalOptions: Object)
    requires !Truthy(Get(additionalOptions, "context"))
    ensures QueryOptions(s, additionalOptions)["context"] == Obj(DefaultContext(s))
  {
  }

  /** Supplying `headers` replaces the default headers as a whole: for instance an
      authenticated store's Authorization header is gone when the caller's
      headers do not repeat it. */
  lemma HeadersReplacedWholesale(s: State, additionalOptions: Object, headers: Object)
    requires Get(additionalOptions, "context") == Obj(map["headers" := Obj(headers)])
    requires AuthorizationHeader !in headers
    ensures QueryOptions(s, additionalOptions)["context"] == Obj(map["headers" := Obj(headers)])
    ensures s.IsAuthenticated() ==> AuthorizationHeader in DefaultHeaders(s)
  {
    AuthorizationIffAuthenticated(s);
  }

  /** The query variables are a shallow copy of an object argument; a
      `null` or `undefined` argument gives no variables. */
  lemma VariablesCopied(variables: Value)
    ensures variables.Obj? ==> QueryVariables(variables) == variables.fields
    ensures variables == Null || variables == Undefined ==> QueryVariables(variables) == map[]
  {
  }
}
