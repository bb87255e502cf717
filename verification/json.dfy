/** JSON-like values as Python holds them after `json.loads`, with Python's truthiness. */
module Json {

  datatype Json =
    | JNull
    | JBool(b: bool)
    | JInt(i: int)
    | JStr(s: string)
    | JArr(items: seq<Json>)
    | JObj(fields: map<string, Json>)

  /** Python's `bool(v)`. */
  predicate Truthy(v: Json)
  {
    match v
    case JNull => false
    case JBool(b) => b
    case JInt(i) => i != 0
    case JStr(s) => s != ""
    case JArr(a) => a != []
    case JObj(m) => m != map[]
  }

  /** Python's `d.get(key, default)` on a dict. */
  function Get(m: map<string, Json>, key: string, default: Json): Json
  {
    if key in m then m[key] else default
  }
}
