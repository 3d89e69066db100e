/** The canonical structured value that every text format is converted to and from: a parsed JSON
    value. JavaScript numbers are doubles; the model keeps integers only, which is enough for the
    one place the store inspects a value (its truthiness). */
module Canonical {

  datatype Json =
    | JNull
    | JBool(b: bool)
    | JNumber(n: int)
    | JString(s: string)
    | JArray(items: seq<Json>)
    | JObject(members: seq<(string, Json)>)

  /** JavaScript truthiness of a parsed value: `null`, `false`, `0` and `""` are falsy,
      every array and object (even an empty one) is truthy. */
  predicate Truthy(j: Json)
  {
    match j
    case JNull => false
    case JBool(b) => b
    case JNumber(n) => n != 0
    case JString(s) => s != ""
    case JArray(_) => true
    case JObject(_) => true
  }
}
