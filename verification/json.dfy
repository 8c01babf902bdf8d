/** JSON-shaped values: the dictionaries the vision service answers with and the action
    dictionaries the test agent executes are dynamically typed, so the model keeps them as
    JSON values and states Python's lookups and truthiness on them. */
module JsonValues {

  datatype Json =
    | JNull
    | JBool(b: bool)
    | JInt(i: int)
    | JReal(r: real)
    | JStr(s: string)
    | JArr(items: seq<Json>)
    | JObj(fields: map<string, Json>)

  /** A Python dict with string keys. */
  type Dict = map<string, Json>

  /** Python truthiness: None, False, zero and empty containers are false. */
  predicate TruthyValue(v: Json)
  {
    match v
    case JNull => false
    case JBool(b) => b
    case JInt(i) => i != 0
    case JReal(r) => r != 0.0
    case JStr(s) => s != ""
    case JArr(a) => a != []
    case JObj(m) => m != map[]
  }

  /** `d.get(key, default)` */
  function Get(d: Dict, key: string, default: Json): (v: Json)
    ensures key in d ==> v == d[key]
    ensures key !in d ==> v == default
  {
    if key in d then d[key] else default
  }

  /** `d.get(key)` is truthy: the key is present with a truthy value. */
  predicate Flag(d: Dict, key: string)
  {
    key in d && TruthyValue(d[key])
  }
}
