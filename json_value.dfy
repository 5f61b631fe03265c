/** The parsed JSON documents the provider reads and builds (`serde_json::Value`). */
module JsonValue {
  import opened Wrappers

  /** Numbers are not inspected by this core and are kept as integers. */
  datatype Json =
    | Null
    | Bool(b: bool)
    | Number(n: int)
    | String(s: string)
    | Array(items: seq<Json>)
    | Object(fields: map<string, Json>)

  /** `Value::get` with a string index: only an object has fields. */
  function Get(j: Json, key: string): (r: Option<Json>)
    ensures r.Some? <==> j.Object? && key in j.fields
    ensures r.Some? ==> r.value == j.fields[key]
  {
    match j
    case Object(fields) => if key in fields then Some(fields[key]) else None
    case _ => None
  }

  /** `Value::as_str`. */
  function AsStr(j: Json): Option<string> {
    match j
    case String(s) => Some(s)
    case _ => None
  }

  /** `Value::as_array`. */
  function AsArray(j: Json): Option<seq<Json>> {
    match j
    case Array(items) => Some(items)
    case _ => None
  }
}
