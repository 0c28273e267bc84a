/** The dynamically typed JSON document (serde_json::Value) and the
    accessors the client applies to it. */
module JsonValue {
  import opened Wrappers

  const U32_MAX: int := 0xFFFF_FFFF
  const U64_MAX: int := 0xFFFF_FFFF_FFFF_FFFF

  /** A parsed JSON value. Integers are kept exactly; any other number
      (one serde_json holds as an f64) is kept as its opaque text. */
  datatype Json =
    | Null
    | Bool(b: bool)
    | Int(i: int)
    | Float(repr: string)
    | Str(s: string)
    | Arr(items: seq<Json>)
    | Obj(fields: map<string, Json>)

  /** `value[key]`: the member of an object, or `Null` when the value is
      not an object or has no such member. */
  function Get(j: Json, key: string): Json
  {
    if j.Obj? && key in j.fields then j.fields[key] else Null
  }

  /** `value.as_array()` */
  function AsArray(j: Json): Option<seq<Json>>
  {
    if j.Arr? then Some(j.items) else None
  }

  /** `value.as_str()` */
  function AsStr(j: Json): Option<string>
  {
    if j.Str? then Some(j.s) else None
  }

  /** `value.as_u64()`: only an integer in the range of u64 qualifies. */
  function AsU64(j: Json): Option<nat>
  {
    if j.Int? && 0 <= j.i <= U64_MAX then Some(j.i) else None
  }
}
