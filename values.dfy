/**
 * Dynamically typed values, as they appear in JavaScript objects on the
 * frontend and in Go's `map[string]interface{}` payloads on the backend,
 * together with the few JavaScript operators the frontend relies on:
 * truthiness, `||`, `&&`, property access and object spread.
 */
module Values {

  datatype Option<+T> = None | Some(value: T)

  /** A JSON-like value; `Undefined` is JavaScript's `undefined`.
      Numbers are modelled as integers (see README, "Left out"). */
  datatype Value =
    | Undefined
    | Null
    | Bool(b: bool)
    | Num(n: int)
    | Str(s: string)
    | Arr(items: seq<Value>)
    | Obj(fields: map<string, Value>)

  type Object = map<string, Value>

  /** JavaScript truthiness: `undefined`, `null`, `false`, `0` and `""` are falsy,
      every other value (including `[]` and `{}`) is truthy. */
  predicate Truthy(v: Value) {
    match v
    case Undefined => false
    case Null => false
    case Bool(b) => b
    case Num(n) => n != 0
    case Str(s) => s != ""
    case Arr(_) => true
    case Obj(_) => true
  }

  /** JavaScript `a || b`: the first operand when it is truthy, else the second. */
  function Or(a: Value, b: Value): (r: Value)
    ensures Truthy(a) ==> r == a
    ensures !Truthy(a) ==> r == b
  {
    if Truthy(a) then a else b
  }

  /** JavaScript `a && b`: the first operand when it is falsy, else the second. */
  function And(a: Value, b: Value): (r: Value)
    ensures !Truthy(a) ==> r == a
    ensures Truthy(a) ==> r == b
  {
    if Truthy(a) then b else a
  }

  /** `null` for a missing optional string, the string otherwise. */
  function FromOption(o: Option<string>): (v: Value)
    ensures o.None? <==> v == Null
    ensures o.Some? ==> v == Str(o.value)
  {
    match o
    case None => Null
    case Some(s) => Str(s)
  }

  /** Property read `o.k` on an object: a missing key reads as `undefined`. */
  function Get(o: Object, k: string): (v: Value)
    ensures k !in o ==> v == Undefined
    ensures k in o ==> v == o[k]
  {
    if k in o then o[k] else Undefined
  }

  /** Property read `v[k]` on an arbitrary value. `None` stands for the
      TypeError JavaScript throws when `v` is `null` or `undefined`.
      On a primitive or an array the named property is absent. */
  function Member(v: Value, k: string): (r: Option<Value>)
    ensures r.None? <==> v == Null || v == Undefined
    ensures v.Obj? ==> r == Some(Get(v.fields, k))
  {
    match v
    case Undefined => None
    case Null => None
    case Obj(fields) => Some(Get(fields, k))
    case _ => Some(Undefined)
  }

  /** The own properties that `...v` copies into an object literal.
      `null`, `undefined`, booleans and numbers contribute nothing; so do
      strings and arrays in this model (see README, "Left out"). */
  function OwnProps(v: Value): (m: Object)
    ensures v.Obj? ==> m == v.fields
    ensures !v.Obj? ==> m == map[]
  {
    if v.Obj? then v.fields else map[]
  }

  /** The object literal `{ ...base, ...v }`: keys of `v` override `base`. */
  function Spread(base: Object, v: Value): (m: Object)
    ensures m.Keys == base.Keys + OwnProps(v).Keys
    ensures forall k :: k in OwnProps(v) ==> m[k] == OwnProps(v)[k]
    ensures forall k :: k in base && k !in OwnProps(v) ==> m[k] == base[k]
  {
    base + OwnProps(v)
  }
}
