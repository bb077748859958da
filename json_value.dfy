/**
  The value that Python's `json.load` hands back, as far as the updater looks at it,
  together with the two `isinstance` tests that `Config.is_valid` applies to it.
 */
module JsonValues {

  datatype JsonValue =
    | JNull
    | JBool(b: bool)
    | JInt(i: int)
    | JFloat(literal: string)   // never computed with, so kept as its literal
    | JString(str: string)
    | JArray(items: seq<JsonValue>)
    | JObject(fields: map<string, JsonValue>)

  /** `isinstance(v, str)` */
  predicate IsStr(v: JsonValue) {
    v.JString?
  }

  /** `isinstance(v, int)`: in Python `bool` is a subclass of `int`, so booleans pass too. */
  predicate IsInt(v: JsonValue) {
    v.JInt? || v.JBool?
  }

  /** The number Python compares when `v` passed `IsInt`: `True` is 1 and `False` is 0. */
  function IntValue(v: JsonValue): int
    requires IsInt(v)
  {
    match v
    case JBool(b) => if b then 1 else 0
    case JInt(i) => i
  }
}
