/**
 * Decoded JSON values, as Python's `json` module hands them to the chat
 * endpoint: `None`, `bool`, `int`, `float`, `str`, `list` and `dict`.
 */
module JsonValues {

  datatype Json =
    | JNull
    | JBool(b: bool)
    | JInt(i: int)
    | JFloat(f: real)
    | JStr(s: string)
    | JArr(items: seq<Json>)
    | JObj(fields: map<string, Json>)

  /** The name Python gives the runtime type of a decoded value (`type(v).__name__`). */
  function TypeName(v: Json): (name: string)
    ensures |name| > 0
    ensures name == "dict" <==> v.JObj?
    ensures name == "list" <==> v.JArr?
  {
    match v
    case JNull => "NoneType"
    case JBool(_) => "bool"
    case JInt(_) => "int"
    case JFloat(_) => "float"
    case JStr(_) => "str"
    case JArr(_) => "list"
    case JObj(_) => "dict"
  }
}
