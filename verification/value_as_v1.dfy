/**
 * The first Rust library's projections from a database value. Integer
 * projections never fail on an integer: they reinterpret or truncate with
 * `as`, as the functions' names say.
 */
module ValueAsV1 {
  import opened Ints
  import opened Wrappers
  import opened DbValue

  function AsString(v: Value): (r: Option<string>)
    ensures r.Some? <==> v.String?
    ensures r.Some? ==> v == String(r.value)
  {
    match v
    case String(s) => Some(s)
    case _ => None
  }

  function AsI64(v: Value): (r: Option<i64>)
    ensures r.Some? <==> v.Integer?
    ensures r.Some? ==> v == Integer(r.value)
  {
    match v
    case Integer(i) => Some(i)
    case _ => None
  }

  /** `i as u64`: a negative integer wraps to i + 2^64. */
  function AsU64(v: Value): (r: Option<u64>)
    ensures r.Some? <==> v.Integer?
    ensures r.Some? ==> r.value == (if v.i >= 0 then v.i else v.i + TWO_64)
  {
    match v
    case Integer(i) => Some(ToU64(i))
    case _ => None
  }

  /** `i as i32`: the low 32 bits, read as two's complement. */
  function AsI32(v: Value): (r: Option<i32>)
    ensures r.Some? <==> v.Integer?
    ensures r.Some? ==> (r.value - v.i) % TWO_32 == 0
    ensures r.Some? && -TWO_31 <= v.i < TWO_31 ==> r.value == v.i
  {
    match v
    case Integer(i) => Some(ToI32(i))
    case _ => None
  }

  function AsBool(v: Value): (r: Option<bool>)
    ensures r.Some? <==> v.Boolean?
    ensures r.Some? ==> v == Boolean(r.value)
  {
    match v
    case Boolean(b) => Some(b)
    case _ => None
  }

  function AsVecRef(v: Value): (r: Option<seq<Value>>)
    ensures r.Some? <==> v.List?
    ensures r.Some? ==> v == List(r.value)
  {
    match v
    case List(l) => Some(l)
    case _ => None
  }

  /** Reinterpreting as `u64` and back as `i64` recovers the integer. */
  lemma U64Reinterpret(i: i64)
    ensures AsU64(Integer(i)).Some? && ToI64(AsU64(Integer(i)).value) == i
  {
  }

  /** Truncation is not injective: 2^32 and 0 read as the same `i32`. */
  lemma I32Truncates()
    ensures AsI32(Integer(TWO_32)) == AsI32(Integer(0)) == Some(0)
  {
  }
}
