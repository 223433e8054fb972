/** JSON-like Python values: what tool arguments, metadata, schemas and config dicts are made of. */
module Json {
  import opened Common
  import Dict

  /** `None`, `bool`, `int`, `str`, `list` and `dict` (in insertion order). */
  datatype Json =
    | JNull
    | JBool(b: bool)
    | JInt(i: int)
    | JStr(s: string)
    | JArr(items: seq<Json>)
    | JObj(fields: seq<(string, Json)>)

  /** A Python `dict[str, Any]`. */
  type Object = seq<(string, Json)>

  /** `d.get(key, default)`. */
  function GetOr(d: Object, key: string, default: Json): Json {
    Dict.Get(d, key).GetOr(default)
  }

  /** Python truthiness of a value. */
  predicate Truthy(j: Json) {
    match j
    case JNull => false
    case JBool(b) => b
    case JInt(i) => i != 0
    case JStr(s) => s != []
    case JArr(xs) => xs != []
    case JObj(fs) => fs != []
  }

  /** A string field: present and a `str`. */
  function GetStr(d: Object, key: string): Option<string> {
    var v := Dict.Get(d, key);
    if v.Some? && v.value.JStr? then Some(v.value.s) else None
  }
}
