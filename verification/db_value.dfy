/**
 * The database's wire value (the Bolt/packstream `Value`), reduced to the
 * variants the model's code reads and writes. Floats are not modelled.
 */
module DbValue {
  import opened Ints

  datatype Value =
    | Null
    | Boolean(b: bool)
    | Integer(i: i64)
    | String(s: string)
    | List(items: seq<Value>)
    | Map(m: map<string, Value>)
    | Structure(signature: u8, fields: seq<Value>)

  /** A Rust failure: a returned error or a panic (an `assert_eq!`, an `unwrap`). */
  datatype Failure = Error(msg: string) | Panic(msg: string)

  /** The structure signature of a node. */
  const NodeSignature: u8 := 0x4E
  /** The structure signature of a relationship. */
  const RelSignature: u8 := 0x52
}
