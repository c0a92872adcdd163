/** JSON values: what a command field may hold and what an artifact file stores. */
module Json {
  import opened Wrappers

  datatype Json =
    | JNull
    | JBool(flag: bool)
    | JInt(number: int)
    | JFloat(real_: real)
    | JString(text: string)
    | JArray(items: seq<Json>)
    | JObject(members: map<string, Json>)

  type Fields = map<string, Json>

  /** `isinstance(value, int) and not isinstance(value, bool) and value > 0`. */
  predicate IsPositiveId(value: Json) {
    value.JInt? && value.number > 0
  }

  /** Python's `value == n` for an integer `n`: `True` equals 1 and `1.0` equals 1. */
  predicate EqualsInteger(value: Json, n: int) {
    match value
    case JInt(k) => k == n
    case JBool(b) => (if b then 1 else 0) == n
    case JFloat(r) => r == n as real
    case _ => false
  }

  /** `fields.get(name)`. */
  function Get(fields: Fields, name: string): Option<Json> {
    if name in fields then Some(fields[name]) else None
  }
}
