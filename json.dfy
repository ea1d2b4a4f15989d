/** JSON values as `serde_json::Value` holds them, with the two accessors the
    code relies on: indexing by key (`v["key"]`) and `as_str()`.
    Objects are maps: serde_json's default object map keeps one value per key
    and no insertion order. Numbers are integers only; no floating point value
    occurs anywhere in the modelled code. */
module Json {
  import opened Wrappers

  datatype Value =
    | Null
    | Bool(b: bool)
    | Number(n: int)
    | Str(s: string)
    | Array(items: seq<Value>)
    | Object(fields: map<string, Value>)

  /** The outcome of parsing one text as JSON (`serde_json::from_str`).
      Text parsing itself is not modelled: callers are given its outcome. */
  datatype Parsed = ParseOk(value: Value) | ParseErr(message: string)

  /** `v[key]`: the field's value, or `Null` when `v` is not an object or has
      no such key (serde_json's `Index` never panics for string keys). */
  function Get(v: Value, key: string): (r: Value)
    ensures v.Object? && key in v.fields ==> r == v.fields[key]
    ensures !(v.Object? && key in v.fields) ==> r == Null
  {
    if v.Object? && key in v.fields then v.fields[key] else Null
  }

  /** `v.as_str()`: the text of a string value, `None` for every other kind. */
  function AsStr(v: Value): (r: Option<string>)
    ensures r.Some? <==> v.Str?
    ensures r.Some? ==> v == Str(r.value)
  {
    if v.Str? then Some(v.s) else None
  }

  /** The key set of an object value, empty for every other kind. */
  function Keys(v: Value): set<string> {
    if v.Object? then v.fields.Keys else {}
  }
}
