/**
 * Parsed YAML as the Python code sees it: strings, integers, booleans, `None`,
 * lists and dicts, with Python's truthiness.
 */
module JsonData {
  import Strings

  datatype Json =
    | JStr(text: string)
    | JNum(num: int)
    | JBool(truth: bool)
    | JNull
    | JList(items: seq<Json>)
    | JObj(fields: map<string, Json>)

  /** `bool(v)`: empty strings, zero, `False`, `None` and empty containers are falsy. */
  predicate Truthy(v: Json)
  {
    match v
    case JStr(s) => s != ""
    case JNum(n) => n != 0
    case JBool(b) => b
    case JNull => false
    case JList(xs) => xs != []
    case JObj(m) => m != map[]
  }

  /** `d.get(key)` on a dict value: the entry, or `None` when the key is absent. */
  function Lookup(m: map<string, Json>, key: string): Json
  {
    if key in m then m[key] else JNull
  }

  /** `str(v)` in an f-string, for scalars; a list or dict is shown as a placeholder. */
  function Show(v: Json): string
  {
    match v
    case JStr(s) => s
    case JNum(n) => Strings.IntToString(n)
    case JBool(b) => if b then "True" else "False"
    case JNull => "None"
    case JList(_) => "[...]"
    case JObj(_) => "{...}"
  }
}
