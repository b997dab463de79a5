/** Decoded JSON documents as the Python scripts see them after `json.loads`,
    together with the two pieces of Python semantics the scripts rely on:
    truthiness (`if value:`) and `str.startswith`. */
module Json {

  datatype Option<+T> = None | Some(value: T)

  /** A decoded JSON value. Numbers are modelled as integers only. */
  datatype Json =
    | JNull
    | JBool(b: bool)
    | JInt(i: int)
    | JStr(s: string)
    | JArr(items: seq<Json>)
    | JObj(fields: map<string, Json>)

  /** A decoded JSON object, the shape of every message on the socket. */
  type Message = map<string, Json>

  /** Python's truth value of a decoded value: None, False, 0, "" and empty
      containers are false, everything else is true. */
  predicate Truthy(j: Json) {
    match j
    case JNull => false
    case JBool(b) => b
    case JInt(i) => i != 0
    case JStr(s) => s != ""
    case JArr(items) => items != []
    case JObj(fields) => |fields| != 0
  }

  /** The prefix that marks a server-pushed notification's method name. */
  const NotificationPrefix: string := "notification:"

  /** Python's `s.startswith(prefix)`. */
  predicate StartsWith(s: string, prefix: string) {
    |prefix| <= |s| && s[..|prefix|] == prefix
  }

  /** Python's `d.get(key, default)` on a dictionary. */
  function Get(obj: map<string, Json>, key: string, default: Json): Json {
    if key in obj then obj[key] else default
  }
}
