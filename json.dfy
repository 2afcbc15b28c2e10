/**
 * The JSON values handled by the engine (serde_json's `Value`) and the
 * machine-integer ranges the Rust code works with.
 */
module Json {
  import opened Wrappers

  const U32_MAX: nat := 0xFFFF_FFFF
  const U64_MAX: nat := 0xFFFF_FFFF_FFFF_FFFF

  /** Rust's `u64`. */
  type u64 = x: int | 0 <= x <= 0xFFFF_FFFF_FFFF_FFFF

  /** A JSON value. Numbers are integers: floating-point JSON numbers are not modelled. */
  datatype Json =
    | Null
    | Bool(b: bool)
    | Number(n: int)
    | String(s: string)
    | Array(items: seq<Json>)
    | Object(fields: map<string, Json>)

  /** `Value::get` with a string key: the member of an object, nothing for any other value. */
  function Get(v: Json, key: string): Option<Json>
  {
    if v.Object? && key in v.fields then Some(v.fields[key]) else None
  }

  /** `Value::as_str`. */
  function AsStr(v: Json): Option<string>
  {
    if v.String? then Some(v.s) else None
  }

  /** `Value::as_u64`: an integer in the `u64` range. */
  function AsU64(v: Json): Option<u64>
  {
    if v.Number? && 0 <= v.n <= U64_MAX then Some(v.n as u64) else None
  }

  /** `v.get(key).and_then(|v| v.as_str())`. */
  function GetStr(v: Json, key: string): Option<string>
  {
    match Get(v, key)
    case Some(m) => AsStr(m)
    case None => None
  }

  /** `v.get(key).and_then(|v| v.as_u64())`. */
  function GetU64(v: Json, key: string): Option<u64>
  {
    match Get(v, key)
    case Some(m) => AsU64(m)
    case None => None
  }
}
