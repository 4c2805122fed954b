/** The values `JSON.parse` produces, with the JavaScript notions the
    validator and the migration rely on: truthiness, `typeof`,
    `Array.isArray` and property lookup (an absent property reads as
    `undefined`, modelled as `None`). */
module JsonValue {
  import opened Wrappers

  datatype Json =
    | JNull
    | JBool(b: bool)
    | JNum(n: real)
    | JStr(s: string)
    | JArr(items: seq<Json>)
    | JObj(fields: map<string, Json>)

  /** JavaScript truthiness: `null`, `false`, `0` and `""` are falsy;
      arrays and objects, even empty ones, are truthy. */
  predicate Truthy(j: Json) {
    match j
    case JNull => false
    case JBool(b) => b
    case JNum(n) => n != 0.0
    case JStr(s) => s != ""
    case JArr(_) => true
    case JObj(_) => true
  }

  /** Truthiness of a property read, where `undefined` is falsy. */
  predicate TruthyOpt(v: Option<Json>) {
    v.Some? && Truthy(v.value)
  }

  /** `typeof v === "object"`: objects, arrays and `null`. */
  predicate IsObjectType(j: Json) {
    j.JObj? || j.JArr? || j.JNull?
  }

  /** `obj[key]`: arrays, strings and the other primitive values have no
      own data properties in a parsed document. */
  function Get(j: Json, key: string): (v: Option<Json>)
    ensures v.Some? <==> j.JObj? && key in j.fields
  {
    if j.JObj? && key in j.fields then Some(j.fields[key]) else None
  }

  /** `value || fallback` on a property read. */
  function OrElse(v: Option<Json>, fallback: Json): (r: Json)
    ensures TruthyOpt(v) ==> r == v.value
    ensures !TruthyOpt(v) ==> r == fallback
  {
    if TruthyOpt(v) then v.value else fallback
  }
}
