/**
 * Decoded JSON values, as the `json` library hands them to the program.
 * Parsing and printing JSON text are not modelled: they are the oracle `Codec`.
 */
module Json {
  import opened Wrappers

  /** A decoded JSON value. Numbers are integers only. */
  datatype Json =
    | JNull
    | JBool(b: bool)
    | JNum(n: int)
    | JStr(s: string)
    | JArr(items: seq<Json>)
    | JObj(fields: map<string, Json>)

  /** Python truthiness of a decoded value is false (`not v`): None, False, 0, "", [] or {}. */
  predicate Falsy(j: Json)
  {
    match j
    case JNull => true
    case JBool(b) => !b
    case JNum(n) => n == 0
    case JStr(s) => s == []
    case JArr(a) => a == []
    case JObj(m) => m == map[]
  }

  /** `d.get(k, default)` on the fields of a decoded object. */
  function Get(m: map<string, Json>, k: string, default: Json): Json
  {
    if k in m then m[k] else default
  }

  /**
   * `json.loads` (None when it raises a decode error) and `json.dumps`.
   * Both belong to the json library and are taken as given.
   */
  datatype Codec = Codec(parse: string -> Option<Json>, dump: Json -> string)

  /** A codec reads back every value it writes. */
  ghost predicate Lossless(c: Codec)
  {
    forall j :: c.parse(c.dump(j)) == Some(j)
  }
}
