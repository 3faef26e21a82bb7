/** JSON values as `JSON.parse` produces them and `JSON.stringify` consumes
    them. The parser and the serialiser themselves are not modelled: the
    routes receive them as functions. */
module Json {

  datatype Json =
    | JNull
    | JBool(b: bool)
    | JNum(n: real)
    | JStr(s: string)
    | JArr(items: seq<Json>)
    | JObj(fields: map<string, Json>)

  /** JavaScript truthiness of a JSON value. */
  predicate Truthy(v: Json) {
    match v
    case JNull => false
    case JBool(b) => b
    case JNum(n) => n != 0.0
    case JStr(s) => s != ""
    case JArr(_) => true
    case JObj(_) => true
  }

  /** The outcome of a property read `v.key`. */
  datatype Property = Undefined | Defined(value: Json) | TypeError

  /** `v.key`: reading a property of null throws; an object yields its field
      or undefined; strings, numbers, booleans and arrays have no such own
      JSON property and yield undefined. */
  function Get(v: Json, key: string): (p: Property)
    ensures p.TypeError? <==> v.JNull?
    ensures p.Defined? ==> v.JObj? && key in v.fields && p.value == v.fields[key]
    ensures v.JObj? && key in v.fields ==> p == Defined(v.fields[key])
    ensures v.JObj? && key !in v.fields ==> p == Undefined
  {
    match v
    case JNull => TypeError
    case JObj(f) => if key in f then Defined(f[key]) else Undefined
    case _ => Undefined
  }

  /** The empty array `[]` the routes fall back on. */
  const EmptyArray: Json := JArr([])
}
