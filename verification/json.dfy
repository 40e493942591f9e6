/**
 The part of a `serde_json::Value` the worker looks at: an open, untyped
 tree whose only inspected spot is the `command` member of a DOCKER task's
 `details`.
 */
module Json {
  import opened Results

  datatype JsonValue =
    | Null
    | Bool(b: bool)
    | Number(n: int)
    | Str(s: string)
    | Array(items: seq<JsonValue>)
    | Object(fields: map<string, JsonValue>)

  /** `value[key]`: the member under `key` of an object, and `Null` for a
      missing member or for any value that is not an object. */
  function Member(value: JsonValue, key: string): JsonValue {
    if value.Object? && key in value.fields then value.fields[key] else Null
  }

  /** `value.as_str()`: the text of a string value, nothing otherwise. */
  function AsStr(value: JsonValue): Option<string> {
    if value.Str? then Some(value.s) else None
  }
}
