/** The part of a parsed JSON document (serde_json's `Value`) that the indexer
    inspects, with the accessors it uses. */
module Json {
  import opened Options

  const U64_LIMIT: int := 0x1_0000_0000_0000_0000

  /** Rust's `u64`. */
  newtype u64 = x: int | 0 <= x < 0x1_0000_0000_0000_0000

  /** A JSON value. Integral numbers keep their exact value (of any sign);
      numbers written with a fraction or exponent are `Float`. */
  datatype Value =
    | Null
    | Bool(b: bool)
    | Number(n: int)
    | Float(x: real)
    | Str(s: string)
    | Array(items: seq<Value>)
    | Object(fields: map<string, Value>)

  /** `value[key]`: a missing key, or indexing anything but an object, gives `Null`. */
  function Get(v: Value, key: string): Value
  {
    if v.Object? && key in v.fields then v.fields[key] else Null
  }

  /** `Value::as_str` */
  function AsStr(v: Value): (r: Option<string>)
    ensures r.Some? <==> v.Str?
    ensures r.Some? ==> v == Str(r.value)
  {
    if v.Str? then Some(v.s) else None
  }

  /** `Value::as_u64`: only a non-negative integer that fits in 64 bits. */
  function AsU64(v: Value): (r: Option<u64>)
    ensures r.Some? <==> v.Number? && 0 <= v.n < U64_LIMIT
    ensures r.Some? ==> v == Number(r.value as int)
  {
    if v.Number? && 0 <= v.n < U64_LIMIT then Some(v.n as u64) else None
  }

  /** `Value::as_array` */
  function AsArray(v: Value): (r: Option<seq<Value>>)
    ensures r.Some? <==> v.Array?
    ensures r.Some? ==> v == Array(r.value)
  {
    if v.Array? then Some(v.items) else None
  }
}
