/** Decoded JSON values, as `JSON.parse` produces them. */
module Json {
  import opened Wrappers

  /** Numbers are integers only: floating point is outside the model. An object is a map, so each
      key occurs once (a repeated key in the text keeps its last value, as `JSON.parse` does). */
  datatype JsonValue =
    | Null
    | Bool(b: bool)
    | Num(n: int)
    | Str(s: string)
    | Arr(items: seq<JsonValue>)
    | Obj(fields: map<string, JsonValue>)

  /** Property access `v[key]`: the field's value, or `undefined` when `v` is not an object
      or has no such key. */
  function Get(v: JsonValue, key: string): Option<JsonValue> {
    if v.Obj? && key in v.fields then Some(v.fields[key]) else None
  }
}
