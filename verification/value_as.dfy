/**
 * The current crate's projections from a database value to a Rust value:
 * each is `Some` exactly for its own variant, and an integer projection
 * also needs the value to fit the target type (`TryFrom<i64>`).
 */
module ValueAs {
  import opened Ints
  import opened Wrappers
  import opened DbValue
  import Uuid

  function AsString(v: Value): (r: Option<string>)
    ensures r.Some? <==> v.String?
    ensures r.Some? ==> v == String(r.value)
  {
    match v
    case String(s) => Some(s)
    case _ => None
  }

  /**
   * The generic integer projection, for a target type whose values are the
   * integers in [lo, hi]: `try_into` fails outside that range.
   */
  function AsInt(v: Value, lo: int, hi: int): (r: Option<int>)
    ensures r.Some? <==> v.Integer? && lo <= v.i <= hi
    ensures r.Some? ==> r.value == v.i
  {
    match v
    case Integer(i) => if lo <= i <= hi then Some(i) else None
    case _ => None
  }

  function AsBool(v: Value): (r: Option<bool>)
    ensures r.Some? <==> v.Boolean?
    ensures r.Some? ==> v == Boolean(r.value)
  {
    match v
    case Boolean(b) => Some(b)
    case _ => None
  }

  function AsVec(v: Value): (r: Option<seq<Value>>)
    ensures r.Some? <==> v.List?
    ensures r.Some? ==> v == List(r.value)
  {
    match v
    case List(l) => Some(l)
    case _ => None
  }

  function AsMap(v: Value): (r: Option<map<string, Value>>)
    ensures r.Some? <==> v.Map?
    ensures r.Some? ==> v == Map(r.value)
  {
    match v
    case Map(m) => Some(m)
    case _ => None
  }

  /** The message of a string-slice panic; its exact text is not modelled. */
  const SliceOutOfRange := "byte index out of range"

  /**
   * A string that parses as a UUID is `Some`; any other string, and any
   * other variant, is `None`. A string on which the parser's slicing
   * panics is that panic: `.ok()` only converts an `Err`.
   */
  function AsUuid5(v: Value): (r: Result<Option<Uuid.Uuid5>, Failure>)
    ensures r.Err? <==> v.String? && Uuid.FromStr(v.s) == Err(Uuid.Panic)
    ensures r.Err? ==> r.error == Panic(SliceOutOfRange)
    ensures r.Ok? && r.value.Some? <==> v.String? && Uuid.FromStr(v.s).Ok?
    ensures r.Ok? && r.value.Some? ==> Uuid.FromStr(v.s) == Ok(r.value.value)
  {
    match v
    case String(s) =>
      (match Uuid.FromStr(s)
       case Ok(u) => Ok(Some(u))
       case Err(e) => if e.Panic? then Err(Panic(SliceOutOfRange)) else Ok(None))
    case _ => Ok(None)
  }

  /** The target types the model reads through `AsInt`. */
  function AsI32(v: Value): Option<int> { AsInt(v, -TWO_31, TWO_31 - 1) }
  function AsI64(v: Value): Option<int> { AsInt(v, -TWO_63, TWO_63 - 1) }
  function AsU64(v: Value): Option<int> { AsInt(v, 0, TWO_64 - 1) }
  function AsU16(v: Value): Option<int> { AsInt(v, 0, TWO_16 - 1) }

  /** Every `i64` reads back as an `i64`: the integer projection inverts `Integer`. */
  lemma IntRoundTrip(i: i64)
    ensures AsI64(Integer(i)) == Some(i as int)
  {
  }

  /** A value written from a UUID reads back as that UUID. */
  lemma Uuid5RoundTrip(u: Uuid.Uuid5)
    ensures AsUuid5(String(Uuid.ToString(u))) == Ok(Some(u))
  {
    Uuid.RoundTrip(u);
  }

  /** Seventy-three dashes make the parser's slicing panic, and the panic is not turned into `None`. */
  lemma DashesPanic()
    ensures AsUuid5(String(seq(73, _ => '-'))) == Err(Panic(SliceOutOfRange))
  {
    Uuid.DashesPanic();
  }

  /** Reading a negative integer as unsigned fails rather than wrapping. */
  lemma UnsignedRejectsNegative(i: i64)
    requires i < 0
    ensures AsU64(Integer(i)) == None
  {
  }
}
