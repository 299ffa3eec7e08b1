/** JSON documents as they travel in request and response bodies. */
module JsonValues {
  import opened Wrappers

  /** A decoded JSON value. Numbers are kept integral: nothing in the client
      computes with them. */
  datatype Json =
    | JNull
    | JBool(b: bool)
    | JNumber(n: int)
    | JString(s: string)
    | JArray(items: seq<Json>)
    | JObject(fields: map<string, Json>)

  /** Python's truth value of the decoded object: `None`, `False`, `0`, `""`,
      `[]` and `{}` are false, everything else is true. */
  predicate Truthy(j: Json) {
    match j
    case JNull => false
    case JBool(b) => b
    case JNumber(n) => n != 0
    case JString(s) => s != ""
    case JArray(items) => items != []
    case JObject(fields) => fields != map[]
  }

  /** `j[key]` on a decoded object; `None` where Python raises. */
  function Field(j: Json, key: string): Option<Json> {
    if j.JObject? && key in j.fields then Some(j.fields[key]) else None
  }

  /** Follows a path of object keys, `j[k0][k1]...`; `None` where Python raises. */
  function Lookup(j: Json, path: seq<string>): Option<Json>
    decreases |path|
  {
    if path == [] then Some(j)
    else match Field(j, path[0])
      case None => None
      case Some(child) => Lookup(child, path[1..])
  }

  /** The string at `path`, if there is one. */
  function StringAt(j: Json, path: seq<string>): Option<string> {
    match Lookup(j, path)
    case Some(JString(s)) => Some(s)
    case _ => None
  }
}
