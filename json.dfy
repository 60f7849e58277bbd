/** JSON values as `JSON.parse` and `res.json()` produce them, and the JavaScript
    operations the routes and pages apply to them: truthiness, member access and
    optional chaining. A member read that finds nothing is `undefined`, written `None`. */
module Json {
  import opened Wrappers

  datatype Json =
    | Null
    | Bool(b: bool)
    | Number(n: real)
    | Str(s: string)
    | Array(items: seq<Json>)
    | Object(fields: map<string, Json>)

  /** JavaScript truthiness of a value read from JSON (`None` is `undefined`).
      JSON has no NaN, so a number is falsy exactly when it is zero. */
  predicate Truthy(v: Option<Json>) {
    match v
    case None => false
    case Some(j) =>
      match j
      case Null => false
      case Bool(b) => b
      case Number(n) => n != 0.0
      case Str(s) => s != ""
      case Array(_) => true
      case Object(_) => true
  }

  /** `v.key` on a value that is not `null`: only objects have members here. */
  function Member(v: Json, key: string): (r: Option<Json>)
    ensures r.Some? <==> v.Object? && key in v.fields
    ensures r.Some? ==> r.value == v.fields[key]
  {
    if v.Object? && key in v.fields then Some(v.fields[key]) else None
  }

  /** `v?.key`: `undefined` when `v` is `undefined` or `null`. */
  function OptMember(v: Option<Json>, key: string): (r: Option<Json>)
    ensures r.Some? ==> v.Some? && v.value.Object? && key in v.value.fields
  {
    if v.None? || v.value.Null? then None else Member(v.value, key)
  }

  /** `v?.[0]`: the first element of an array, the first character of a string,
      or the member named "0" of an object. */
  function OptFirst(v: Option<Json>): (r: Option<Json>)
    ensures v.Some? && v.value.Array? && v.value.items != [] ==> r == Some(v.value.items[0])
    ensures v.None? ==> r.None?
  {
    match v
    case None => None
    case Some(j) =>
      match j
      case Array(items) => if items == [] then None else Some(items[0])
      case Str(s) => if s == "" then None else Some(Str([s[0]]))
      case Object(fields) => if "0" in fields then Some(fields["0"]) else None
      case _ => None
  }

  /** The text of a value if it is a string: what a string method such as
      `match` can be called on without throwing. */
  function AsString(v: Option<Json>): (r: Option<string>)
    ensures r.Some? <==> v.Some? && v.value.Str?
  {
    if v.Some? && v.value.Str? then Some(v.value.s) else None
  }
}
