/**
  JSON values as Python holds them after `json.loads` or `response.json()`,
  with the few Python operations the services apply to them: truthiness,
  the membership test `key in value` and `dict.get`.
 */
module PyJson {
  import opened Wrappers
  import opened Text

  /** A decoded JSON value: None, bool, number, str, list or dict. */
  datatype Json =
    | JNull
    | JBool(b: bool)
    | JNum(n: real)
    | JStr(s: string)
    | JArr(items: seq<Json>)
    | JObj(fields: map<string, Json>)

  /** What `response.json()` produced: the decoded body, or the text `str(e)` of the exception it raised. */
  datatype Body = Parsed(value: Json) | Unparseable(reason: string)

  /** A Python dict decoded from a JSON object. */
  type Dict = map<string, Json>

  /** The outcome of a Python expression that may raise (KeyError, TypeError, AttributeError). */
  datatype Outcome<+T> = Returned(value: T) | Raised

  /** `bool(value)`: None, False, zero and empty strings, lists and dicts are falsy. */
  predicate Truthy(j: Json) {
    match j
    case JNull => false
    case JBool(b) => b
    case JNum(n) => n != 0.0
    case JStr(s) => s != ""
    case JArr(items) => items != []
    case JObj(fields) => fields != map[]
  }

  /** `d.get(key, default)`. */
  function Get(d: Dict, key: string, default: Json): Json {
    if key in d then d[key] else default
  }

  /**
    `key in value`: key membership for a dict, element membership for a list,
    the substring test for a str; any other value raises TypeError.
   */
  function In(key: string, j: Json): Outcome<bool> {
    match j
    case JObj(fields) => Returned(key in fields)
    case JArr(items) => Returned(JStr(key) in items)
    case JStr(s) => Returned(Contains(s, key))
    case _ => Raised
  }

  /**
    `str(value)` inside an f-string: a str is inserted as it is; how Python renders
    any other value is supplied by `render`.
   */
  function Show(j: Json, render: Json -> string): string {
    if j.JStr? then j.s else render(j)
  }
}
