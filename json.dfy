/** An abstract JSON value with the accessors the program uses on
    `serde_json::Value`: `get` with a string key, `as_array` and `as_str`.
    Numbers keep their textual form; their arithmetic plays no part here. */
module Json {
  import opened Wrappers

  datatype Value =
    | Null
    | Bool(b: bool)
    | Number(text: string)
    | Str(s: string)
    | Array(items: seq<Value>)
    | Object(fields: map<string, Value>)

  /** `Value::get(key)`: the member `key` of an object; `None` for a missing
      key and for every value that is not an object. */
  function Get(v: Value, key: string): (r: Option<Value>)
    ensures r.Some? <==> v.Object? && key in v.fields
    ensures r.Some? ==> r.value == v.fields[key]
  {
    match v
    case Object(fields) => if key in fields then Some(fields[key]) else None
    case _ => None
  }

  /** `Value::as_array`. */
  function AsArray(v: Value): (r: Option<seq<Value>>)
    ensures r.Some? <==> v.Array?
    ensures r.Some? ==> r.value == v.items
  {
    if v.Array? then Some(v.items) else None
  }

  /** `Value::as_str`. */
  function AsStr(v: Value): (r: Option<string>)
    ensures r.Some? <==> v.Str?
    ensures r.Some? ==> r.value == v.s
  {
    if v.Str? then Some(v.s) else None
  }
}
