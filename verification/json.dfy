/** The part of a JSON value (`serde_json::Value`) the server reads and builds.
    Objects are keyed maps: without the order-preserving feature a serde
    object holds each key at most once and has no meaningful order. */
module JsonValue {

  import opened Wrappers

  datatype Json =
    | Null
    | Bool(b: bool)
    | Number(n: int)
    | String(s: string)
    | Array(items: seq<Json>)
    | Object(fields: map<string, Json>)

  /** `value[key]`: the field of an object, and `Null` both for a missing key
      and for a value that is not an object at all. */
  function Index(v: Json, key: string): (r: Json)
    ensures v.Object? && key in v.fields ==> r == v.fields[key]
    ensures r != Null ==> v.Object? && key in v.fields
  {
    if v.Object? && key in v.fields then v.fields[key] else Null
  }

  /** `value.as_str()`: the text of a string value, nothing for any other kind. */
  function AsStr(v: Json): (r: Option<string>)
    ensures r.Some? <==> v.String?
    ensures r.Some? ==> v == String(r.value)
  {
    if v.String? then Some(v.s) else None
  }
}
