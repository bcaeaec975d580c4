/**
 * The option record `useMutationComposable` builds before handing it to
 * Apollo's `useMutation` (frontend/composables/useMutationComposable.js).
 */
module MutationComposable {
  import opened Values
  import opened Store
  import QueryComposable

  const UserIdHeader := QueryComposable.UserIdHeader
  const RoleHeader := QueryComposable.RoleHeader
  const AuthorizationHeader := QueryComposable.AuthorizationHeader

  /** The text the template literal `${token}` produces: the string, or "null". */
  function TemplateText(token: Option<string>): string {
    if token.Some? then token.value else "null"
  }

  /** `defaultContext.headers`: id and role passed through, Authorization always set. */
  function DefaultHeaders(s: State): Object {
    map[
      UserIdHeader := FromOption(s.id),
      RoleHeader := FromOption(s.role),
      AuthorizationHeader := Str("Bearer " + TemplateText(s.token))
    ]
  }

  function DefaultContext(s: State): Object {
    map["headers" := Obj(DefaultHeaders(s))]
  }

  /** `mergedOptions`: only `fetchPolicy` and `context`; other keys of
      `additionalOptions` are dropped. */
  function MutationOptions(s: State, additionalOptions: Object): Object {
    map[
      "fetchPolicy" := Str("network-only"),
      "context" := Obj(Spread(DefaultContext(s), Or(Get(additionalOptions, "context"), Obj(map[]))))
    ]
  }

  /** The three headers are always present; id and role are the store's values
      unchanged (`null` included), and Authorization is "Bearer " + String(token),
      which is "Bearer null" without a token. */
  lemma HeadersPassThrough(s: State)
    ensures DefaultHeaders(s).Keys == {UserIdHeader, RoleHeader, AuthorizationHeader}
    ensures DefaultHeaders(s)[UserIdHeader] == (if s.id.None? then Null else Str(s.id.value))
    ensures DefaultHeaders(s)[RoleHeader] == (if s.role.None? then Null else Str(s.role.value))
    ensures s.token.None? ==> DefaultHeaders(s)[AuthorizationHeader] == Str("Bearer null")
    ensures s.token.Some? ==> DefaultHeaders(s)[AuthorizationHeader] == Str("Bearer " + s.token.value)
  {
  }

  /** Whatever the caller passes, the options hold exactly `fetchPolicy` (fixed to
      "network-only") and `context`. */
  lemma OptionsShape(s: State, additionalOptions: Object)
    ensures MutationOptions(s, additionalOptions).Keys == {"fetchPolicy", "context"}
    ensures MutationOptions(s, additionalOptions)["fetchPolicy"] == Str("network-only")
  {
  }

  /** The caller's context overrides the default context key by key. */
  lemma ContextMergeShallow(s: State, additionalOptions: Object, extra: Object)
    requires Get(additionalOptions, "context") == Obj(extra)
    ensures var context := MutationOptions(s, additionalOptions)["context"];
            context.Obj?
            && context.fields.Keys == extra.Keys + {"headers"}
            && (forall k :: k in extra ==> context.fields[k] == extra[k])
            && ("headers" !in extra ==> context.fields["headers"] == Obj(DefaultHeaders(s)))
  {
  }

  /** The mutation and query headers coincide for a store with an id, a role and
      a token; without a token they differ in the Authorization header. */
  lemma AgreesWithQueryHeaders(s: State)
    ensures (s.IsAuthenticated() && s.id.Some? && s.id.value != "" && s.role.Some? && s.role.value != "")
      ==> DefaultHeaders(s) == QueryComposable.DefaultHeaders(s)
    ensures s.token.None?
      ==> (AuthorizationHeader !in QueryComposable.DefaultHeaders(s)
           && DefaultHeaders(s)[AuthorizationHeader] == Str("Bearer null"))
  {
    QueryComposable.AuthorizationIffAuthenticated(s);
  }
}
