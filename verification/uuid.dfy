/**
 * The older Rust library's UUID type: a single 128-bit value or a pair of
 * them, read from and written as the 8-4-4-4-12 hexadecimal form of section
 * 3 of RFC 4122 (a pair is two such forms joined by ':').
 *
 * Lengths and slices here count characters. The source counts bytes, so
 * the two agree on ASCII text only.
 */
module Uuid {
  import opened Ints
  import opened Wrappers

  const TWO_128: int := 0x1_0000_0000_0000_0000_0000_0000_0000_0000

  datatype Uuid5 = Single(v: u128) | Double(a: u128, b: u128)

  /** Why the standard library's integer parser refused its input. */
  datatype IntErrorKind = Empty | InvalidDigit | PosOverflow

  /**
   * A parse failure: the source's two error kinds, plus the panic that
   * slicing a too-short stripped string raises.
   */
  datatype ParseError = Formatting(msg: string) | Parse(kind: IntErrorKind) | Panic

  /** The value of a hexadecimal digit of either case. */
  function HexValue(c: char): (r: Option<nat>)
    ensures r.Some? ==> r.value < 16
  {
    if '0' <= c <= '9' then Some(c as int - '0' as int)
    else if 'a' <= c <= 'f' then Some(c as int - 'a' as int + 10)
    else if 'A' <= c <= 'F' then Some(c as int - 'A' as int + 10)
    else None
  }

  /**
   * Base-16 digits read left to right into a 128-bit accumulator: the first
   * non-digit stops with `InvalidDigit`, the first step past 2^128 - 1 with
   * `PosOverflow`.
   */
  function Digits(s: seq<char>): (r: Result<u128, IntErrorKind>)
    decreases |s|
  {
    if s == [] then Ok(0)
    else match Digits(s[..|s| - 1])
      case Err(e) => Err(e)
      case Ok(acc) =>
        match HexValue(s[|s| - 1])
        case None => Err(InvalidDigit)
        case Some(d) => if acc * 16 + d < TWO_128 then Ok(acc * 16 + d) else Err(PosOverflow)
  }

  /** `u128::from_str_radix(s, 16)`: an optional leading '+', then at least one digit. */
  function FromStrRadix16(s: seq<char>): (r: Result<u128, IntErrorKind>)
    ensures s == [] ==> r == Err(Empty)
    ensures s != [] && s[0] != '+' ==> r == Digits(s)
  {
    if s == [] then Err(Empty)
    else if s[0] == '+' then (if |s| == 1 then Err(InvalidDigit) else Digits(s[1..]))
    else Digits(s)
  }

  function RemoveDashes(s: seq<char>): seq<char>
    decreases |s|
  {
    if s == [] then []
    else (if s[0] == '-' then [] else [s[0]]) + RemoveDashes(s[1..])
  }

  function ParseHex(s: seq<char>): Result<u128, ParseError>
  {
    match FromStrRadix16(s)
    case Ok(v) => Ok(v)
    case Err(k) => Err(Parse(k))
  }

  /**
   * `Uuid5::from_str`: 36 characters give a single value from the digits
   * left once dashes are removed; 73 give a pair from the first 32 and the
   * characters after the 33rd of the stripped string; any other length is a
   * formatting error.
   */
  function FromStr(s: string): (r: Result<Uuid5, ParseError>)
    ensures |s| != 36 && |s| != 73 ==> r == Err(Formatting(s + " is an invalid UUID v5 format"))
    ensures r.Ok? && |s| == 36 ==> r.value.Single?
    ensures r.Ok? && |s| == 73 ==> r.value.Double?
  {
    if |s| == 36 then
      match ParseHex(RemoveDashes(s))
      case Ok(v) => Ok(Single(v))
      case Err(e) => Err(e)
    else if |s| == 73 then
      var stripped := RemoveDashes(s);
      if |stripped| < 32 then Err(Panic)
      else match ParseHex(stripped[..32])
        case Err(e) => Err(e)
        case Ok(a) =>
          if |stripped| < 33 then Err(Panic)
          else match ParseHex(stripped[33..])
            case Err(e) => Err(e)
            case Ok(b) => Ok(Double(a, b))
    else Err(Formatting(s + " is an invalid UUID v5 format"))
  }

  function HexDigit(d: nat): (c: char)
    requires d < 16
    ensures HexValue(c) == Some(d)
    ensures c != '-' && c != '+' && c != ':'
  {
    "0123456789abcdef"[d]
  }

  function Pow16(n: nat): (r: nat)
    ensures r >= 1
  {
    if n == 0 then 1 else 16 * Pow16(n - 1)
  }

  /** The low `n` hexadecimal digits of `v`, most significant first, zero-padded. */
  function Hex(v: nat, n: nat): (r: seq<char>)
    ensures |r| == n
    ensures '-' !in r && ':' !in r
    ensures n > 0 ==> r[0] != '+'
  {
    if n == 0 then [] else Hex(v / 16, n - 1) + [HexDigit(v % 16)]
  }

  /** `Display` of a single value: 32 lowercase digits grouped 8-4-4-4-12. */
  function SingleString(v: u128): (r: string)
    ensures |r| == 36
  {
    var h := Hex(v, 32);
    h[0..8] + "-" + h[8..12] + "-" + h[12..16] + "-" + h[16..20] + "-" + h[20..]
  }

  /** `Display`: a pair is the two single forms joined by ':'. */
  function ToString(u: Uuid5): (r: string)
    ensures u.Single? ==> |r| == 36
    ensures u.Double? ==> |r| == 73
  {
    match u
    case Single(v) => SingleString(v)
    case Double(a, b) => SingleString(a) + ":" + SingleString(b)
  }

  function Zero(): (r: Uuid5)
    ensures r.Single? && r.v == 0
  {
    Single(0)
  }

  lemma {:induction false} RemoveDashesConcat(a: seq<char>, b: seq<char>)
    ensures RemoveDashes(a + b) == RemoveDashes(a) + RemoveDashes(b)
    decreases |a|
  {
    if a == [] {
      assert a + b == b;
    } else {
      assert (a + b)[0] == a[0];
      assert (a + b)[1..] == a[1..] + b;
      RemoveDashesConcat(a[1..], b);
    }
  }

  lemma {:induction false} RemoveDashesNone(a: seq<char>)
    requires '-' !in a
    ensures RemoveDashes(a) == a
    decreases |a|
  {
    if a != [] {
      RemoveDashesNone(a[1..]);
    }
  }

  /** The digits of a value that fits are read back as that value. */
  lemma {:induction false} DigitsOfHex(v: nat, n: nat)
    requires v < Pow16(n) && Pow16(n) <= TWO_128
    ensures Digits(Hex(v, n)) == Ok(v)
    decreases n
  {
    if n > 0 {
      var s := Hex(v, n);
      assert s[..|s| - 1] == Hex(v / 16, n - 1);
      assert Pow16(n - 1) <= Pow16(n);
      DigitsOfHex(v / 16, n - 1);
      assert s[|s| - 1] == HexDigit(v % 16);
    } else {
      assert v == 0;
    }
  }

  lemma Pow16Of32()
    ensures Pow16(32) == TWO_128
  {
    assert Pow16(4) == 0x1_0000;
    assert Pow16(8) == 0x1_0000_0000 by { Pow16Add(4, 4); }
    assert Pow16(16) == 0x1_0000_0000_0000_0000 by { Pow16Add(8, 8); }
    Pow16Add(16, 16);
  }

  lemma {:induction false} Pow16Add(m: nat, n: nat)
    ensures Pow16(m + n) == Pow16(m) * Pow16(n)
    decreases m
  {
    if m > 0 {
      Pow16Add(m - 1, n);
      assert Pow16(m + n) == 16 * Pow16(m - 1 + n);
    }
  }

  lemma ParseHexOfHex(v: u128)
    ensures ParseHex(Hex(v, 32)) == Ok(v)
  {
    Pow16Of32();
    DigitsOfHex(v, 32);
  }

  /** Removing the dashes of a single form leaves its 32 digits. */
  lemma StripSingle(v: u128)
    ensures RemoveDashes(SingleString(v)) == Hex(v, 32)
  {
    StripGroups(Hex(v, 32));
  }

  lemma StripGroups(h: seq<char>)
    requires |h| == 32 && '-' !in h
    ensures RemoveDashes(h[0..8] + "-" + h[8..12] + "-" + h[12..16] + "-" + h[16..20] + "-" + h[20..]) == h
  {
    var p0, p1, p2, p3, p4 := h[0..8], h[8..12], h[12..16], h[16..20], h[20..];
    assert '-' !in p0 && '-' !in p1 && '-' !in p2 && '-' !in p3 && '-' !in p4;
    RemoveDashesNone(p0);
    DashJoin(p0, p1);
    DashJoin(p0 + "-" + p1, p2);
    DashJoin(p0 + "-" + p1 + "-" + p2, p3);
    DashJoin(p0 + "-" + p1 + "-" + p2 + "-" + p3, p4);
    assert p0 + p1 + p2 + p3 + p4 == h;
  }

  /** A dash-joined dash-free part survives stripping as it is. */
  lemma DashJoin(x: seq<char>, p: seq<char>)
    requires '-' !in p
    ensures RemoveDashes(x + "-" + p) == RemoveDashes(x) + p
  {
    RemoveDashesConcat(x, "-");
    assert RemoveDashes("-") == [];
    assert RemoveDashes(x + "-") == RemoveDashes(x);
    RemoveDashesConcat(x + "-", p);
    RemoveDashesNone(p);
  }

  /** Reading back what `Display` writes gives the same UUID, for both forms. */
  lemma RoundTrip(u: Uuid5)
    ensures FromStr(ToString(u)) == Ok(u)
  {
    match u
    case Single(v) =>
      StripSingle(v);
      ParseHexOfHex(v);
    case Double(a, b) =>
      var s := ToString(u);
      StripSingle(a);
      StripSingle(b);
      RemoveDashesConcat(SingleString(a) + ":", SingleString(b));
      RemoveDashesConcat(SingleString(a), ":");
      assert RemoveDashes(":") == ":";
      var stripped := Hex(a, 32) + ":" + Hex(b, 32);
      assert RemoveDashes(s) == stripped;
      assert stripped[..32] == Hex(a, 32);
      assert stripped[33..] == Hex(b, 32);
      ParseHexOfHex(a);
      ParseHexOfHex(b);
  }

  /** A 36-character string whose stripped form holds a non-digit is a parse error. */
  lemma NonHexRejected(s: string, i: nat)
    requires |s| == 36
    requires var t := RemoveDashes(s); i < |t| && HexValue(t[i]).None? && t[i] != '+'
    ensures FromStr(s).Err? && FromStr(s).error.Parse?
  {
    var t := RemoveDashes(s);
    DigitsStopAtNonDigit(t, i);
  }

  /** Reading stops with an error at or before any non-digit. */
  lemma {:induction false} DigitsStopAtNonDigit(t: seq<char>, i: nat)
    requires i < |t| && HexValue(t[i]).None?
    ensures Digits(t).Err?
    ensures 0 < i && t[0] == '+' ==> Digits(t[1..]).Err?
    decreases |t|
  {
    if i < |t| - 1 {
      DigitsStopAtNonDigit(t[..|t| - 1], i);
    }
    if 0 < i && t[0] == '+' {
      var u := t[1..];
      assert u[i - 1] == t[i];
      if i - 1 < |u| - 1 {
        DigitsStopAtNonDigit(u[..|u| - 1], i - 1);
      }
    }
  }

  /** A 73-character string of dashes has nothing to slice: the parser panics. */
  lemma DashesPanic()
    ensures FromStr(seq(73, _ => '-')) == Err(Panic)
  {
    var s := seq(73, _ => '-');
    assert RemoveDashes(s) == [] by {
      RemoveDashesAllDashes(s);
    }
  }

  lemma {:induction false} RemoveDashesAllDashes(s: seq<char>)
    requires forall i | 0 <= i < |s| :: s[i] == '-'
    ensures RemoveDashes(s) == []
    decreases |s|
  {
    if s != [] {
      RemoveDashesAllDashes(s[1..]);
    }
  }
}
