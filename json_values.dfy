/**
 * Decoded JSON as the archiver sees it after `response.json()`, with
 * Python's truthiness and `dict.get`.
 */
module JsonValues {

  datatype Json =
    | Null
    | Bool(b: bool)
    | Int(i: int)
    | Str(s: string)
    | Arr(items: seq<Json>)
    | Obj(fields: map<string, Json>)

  /** Python's `bool(v)` for a decoded JSON value. */
  predicate Truthy(v: Json) {
    match v
    case Null => false
    case Bool(b) => b
    case Int(i) => i != 0
    case Str(s) => s != ""
    case Arr(items) => items != []
    case Obj(fields) => fields != map[]
  }

  /** `m.get(key)`: the value under `key`, or None when the key is absent. */
  function Get(m: map<string, Json>, key: string): Json {
    if key in m then m[key] else Null
  }

  /** `m.get(key, default)` */
  function GetOr(m: map<string, Json>, key: string, default: Json): Json {
    if key in m then m[key] else default
  }
}
