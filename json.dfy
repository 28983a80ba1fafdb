/**
 * JSON values as Python's `json.loads` produces them (None, bool, int, float,
 * str, list, dict), with Python's truthiness and `dict.get`.
 */
module Json {

  datatype Json =
    | JNull
    | JBool(b: bool)
    | JInt(i: int)
    | JFloat(r: real)
    | JStr(s: string)
    | JArr(items: seq<Json>)
    | JObj(fields: map<string, Json>)

  /** A Python call that returns a value or lets an exception escape, with str(e). */
  datatype Outcome = Returned(value: Json) | Raised(message: string)

  /** Python truthiness: None, False, 0, 0.0, "", [] and {} are falsy. */
  predicate Truthy(j: Json)
  {
    match j
    case JNull => false
    case JBool(b) => b
    case JInt(i) => i != 0
    case JFloat(r) => r != 0.0
    case JStr(s) => |s| > 0
    case JArr(items) => |items| > 0
    case JObj(fields) => |fields| > 0
  }

  /** Python `d.get(key, default)` on a dict. */
  function Get(fields: map<string, Json>, key: string, default: Json): Json
  {
    if key in fields then fields[key] else default
  }

  /** Python `type(v).__name__` of a decoded JSON value. */
  function TypeName(j: Json): string
  {
    match j
    case JNull => "NoneType"
    case JBool(_) => "bool"
    case JInt(_) => "int"
    case JFloat(_) => "float"
    case JStr(_) => "str"
    case JArr(_) => "list"
    case JObj(_) => "dict"
  }

  /** The `{"error": ..., "raw": ...}` dict that the JSON fallbacks return. */
  function ErrorDict(error: string, raw: string): Json
  {
    JObj(map["error" := JStr(error), "raw" := JStr(raw)])
  }

  /** A one-entry dict. */
  function Obj1(k: string, v: Json): Json
  {
    JObj(map[k := v])
  }

  /** A two-entry dict. */
  function Obj2(k1: string, v1: Json, k2: string, v2: Json): Json
  {
    JObj(map[k1 := v1, k2 := v2])
  }

  /** Python `str(v)` of a decoded JSON value: a string is itself; every other
      value is rendered by `repr`, which the model takes as a parameter. */
  function PyStr(j: Json, repr: Json -> string): string
  {
    if j.JStr? then j.s else repr(j)
  }
}
