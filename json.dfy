/** Decoded JSON values as the Python side sees them (`dict`, `list`, `str`, `int`, `float`, `bool`, `None`). */
module Json {

  datatype Json =
    | JNull
    | JBool(b: bool)
    | JInt(i: int)
    | JFloat(f: real)
    | JStr(s: string)
    | JList(items: seq<Json>)
    | JObject(fields: map<string, Json>)

  /** A JSON object; key order is not modelled. */
  type Dict = map<string, Json>

  /** Python truthiness: `None`, `False`, `0`, `0.0`, `""`, `[]` and `{}` are falsy. */
  predicate Truthy(v: Json) {
    match v
    case JNull => false
    case JBool(b) => b
    case JInt(i) => i != 0
    case JFloat(f) => f != 0.0
    case JStr(s) => s != ""
    case JList(items) => items != []
    case JObject(fields) => fields != map[]
  }

  /** `d.get(k, default)`. */
  function Get(d: Dict, k: string, default: Json): Json {
    if k in d then d[k] else default
  }
}
