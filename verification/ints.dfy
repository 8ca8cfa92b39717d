/**
 * Fixed-width integers of the C++ and Rust sources, as subset types of `int`,
 * together with the explicit conversions (`as` casts, two's complement
 * wrap-around) the sources rely on.
 */
module Ints {

  const TWO_8: int := 0x100
  const TWO_16: int := 0x1_0000
  const TWO_31: int := 0x8000_0000
  const TWO_32: int := 0x1_0000_0000
  const TWO_63: int := 0x8000_0000_0000_0000
  const TWO_64: int := 0x1_0000_0000_0000_0000

  type u8 = x: int | 0 <= x < 0x100
  type u16 = x: int | 0 <= x < 0x1_0000
  type u32 = x: int | 0 <= x < 0x1_0000_0000
  type u64 = x: int | 0 <= x < 0x1_0000_0000_0000_0000
  type u128 = x: int | 0 <= x < 0x1_0000_0000_0000_0000_0000_0000_0000_0000
  type i32 = x: int | -0x8000_0000 <= x < 0x8000_0000
  type i64 = x: int | -0x8000_0000_0000_0000 <= x < 0x8000_0000_0000_0000

  /** Two's complement reinterpretation of the low 32 bits (`as i32`). */
  function ToI32(x: int): (r: i32)
    ensures (r - x) % TWO_32 == 0
    ensures -TWO_31 <= x < TWO_31 ==> r == x
  {
    var m := x % TWO_32;
    if m < TWO_31 then m else m - TWO_32
  }

  /** The low 32 bits as an unsigned value (`as u32`). */
  function ToU32(x: int): (r: u32)
    ensures (r - x) % TWO_32 == 0
    ensures 0 <= x < TWO_32 ==> r == x
  {
    x % TWO_32
  }

  /** The low 64 bits as an unsigned value (`as u64`). */
  function ToU64(x: int): (r: u64)
    ensures (r - x) % TWO_64 == 0
    ensures 0 <= x < TWO_64 ==> r == x
  {
    x % TWO_64
  }

  /** Two's complement reinterpretation of the low 64 bits (`as i64`, transmute). */
  function ToI64(x: int): (r: i64)
    ensures (r - x) % TWO_64 == 0
    ensures -TWO_63 <= x < TWO_63 ==> r == x
  {
    var m := x % TWO_64;
    if m < TWO_63 then m else m - TWO_64
  }

  /** The low 16 bits (`as u16`). */
  function ToU16(x: int): (r: u16)
    ensures (r - x) % TWO_16 == 0
    ensures 0 <= x < TWO_16 ==> r == x
  {
    x % TWO_16
  }

  /** The low 8 bits (`as u8`). */
  function ToU8(x: int): (r: u8)
    ensures (r - x) % TWO_8 == 0
    ensures 0 <= x < TWO_8 ==> r == x
  {
    x % TWO_8
  }
}
