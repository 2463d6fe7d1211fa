/**
 * The values `JSON.parse` produces, JavaScript truthiness on them, property
 * reads (`undefined` when absent) and the `String(v)` coercion.
 */
module Json {
  import opened Optional

  /** A parsed JSON value; numbers are JavaScript numbers, modelled as reals. */
  datatype Json =
    | JNull
    | JBool(b: bool)
    | JNumber(n: real)
    | JString(s: string)
    | JArray(items: seq<Json>)
    | JObject(fields: map<string, Json>)

  /** JavaScript truthiness: `null`, `false`, `0` and `""` are falsy; arrays and objects are truthy. */
  predicate Truthy(v: Json) {
    match v
    case JNull => false
    case JBool(b) => b
    case JNumber(n) => n != 0.0
    case JString(s) => s != ""
    case JArray(_) => true
    case JObject(_) => true
  }

  /** `v.key`: the property of an object, `undefined` (`None`) for anything else or a missing key. */
  function Get(v: Json, key: string): Option<Json> {
    if v.JObject? && key in v.fields then Some(v.fields[key]) else None
  }

  /** Truthiness of a property read; `undefined` is falsy. */
  predicate TruthyProp(p: Option<Json>) {
    p.Some? && Truthy(p.value)
  }

  /** `Array.isArray(v.key)` */
  predicate IsArrayProp(v: Json, key: string) {
    var p := Get(v, key);
    p.Some? && p.value.JArray?
  }

  /** `parts.join(",")` */
  function JoinComma(parts: seq<string>): string {
    if parts == [] then ""
    else if |parts| == 1 then parts[0]
    else parts[0] + "," + JoinComma(parts[1..])
  }

  /**
   * `String(v)`. Arrays join their elements with commas, writing `null`
   * elements as empty strings; plain objects give `"[object Object]"`. How a
   * number is printed is the parameter `numberText`.
   */
  function ToJsString(v: Json, numberText: real -> string): string
    decreases v
  {
    match v
    case JNull => "null"
    case JBool(b) => if b then "true" else "false"
    case JNumber(n) => numberText(n)
    case JString(s) => s
    case JArray(items) =>
      JoinComma(seq(|items|, i requires 0 <= i < |items| =>
        if items[i].JNull? then "" else ToJsString(items[i], numberText)))
    case JObject(_) => "[object Object]"
  }
}
