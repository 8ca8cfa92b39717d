/**
 * Integers as the Rust formatter writes them into metadata values: `{}` of
 * a signed integer (decimal, a leading '-' when negative) and `{:o}` of an
 * unsigned one (octal), both without leading zeros. Reading a rendering
 * back is the partner definition the round-trip lemmas connect.
 */
module NumText {
  import opened Wrappers

  /** A digit of base `b` (2 to 10). */
  predicate IsDigit(c: char, b: nat)
  {
    '0' as int <= c as int < '0' as int + b
  }

  function DigitChar(d: nat): (c: char)
    requires d < 10
    ensures c as int - '0' as int == d
  {
    (('0' as int) + d) as char
  }

  /** The digits of `n` in base `b`, most significant first: "0" for zero, no leading zeros otherwise. */
  function Render(n: nat, b: nat): (s: string)
    requires 2 <= b <= 10
    ensures |s| >= 1 && (|s| > 1 ==> s[0] != '0')
    ensures forall i :: 0 <= i < |s| ==> IsDigit(s[i], b)
    decreases n
  {
    if n < b then [DigitChar(n)]
    else
      DivShrinks(n, b);
      var d := n % b;
      assert d < b;
      Render(n / b, b) + [DigitChar(d)]
  }

  /** The value of a string of base-`b` digits, read left to right. */
  function Eval(s: string, b: nat): nat
    requires 2 <= b <= 10
    requires forall i :: 0 <= i < |s| ==> IsDigit(s[i], b)
  {
    if s == [] then 0
    else
      assert IsDigit(s[|s| - 1], b);
      Eval(s[..|s| - 1], b) * b + (s[|s| - 1] as int - '0' as int)
  }

  /** Reads an unsigned rendering back: empty text or a non-digit is no number. */
  function ParseNat(s: string, b: nat): (r: Option<nat>)
    requires 2 <= b <= 10
    ensures r.Some? <==> s != [] && forall i :: 0 <= i < |s| ==> IsDigit(s[i], b)
  {
    if s != [] && forall i :: 0 <= i < |s| ==> IsDigit(s[i], b) then Some(Eval(s, b)) else None
  }

  /** `{}` of a signed integer. */
  function Decimal(i: int): (s: string)
    ensures |s| >= 1
    ensures s[0] == '-' <==> i < 0
  {
    if i < 0 then "-" + Render(-i, 10) else Render(i, 10)
  }

  /** Reads a decimal rendering back. */
  function ParseDecimal(s: string): (r: Option<int>)
    ensures r.Some? && s != [] && s[0] == '-' ==> r.value <= 0
  {
    if s != [] && s[0] == '-' then
      match ParseNat(s[1..], 10)
      case Some(n) => Some(0 - n as int)
      case None => None
    else
      match ParseNat(s, 10)
      case Some(n) => Some(n)
      case None => None
  }

  /** `{:o}` of an unsigned integer. */
  function Octal(n: nat): (s: string)
    ensures |s| >= 1 && forall i :: 0 <= i < |s| ==> IsDigit(s[i], 8)
  {
    Render(n, 8)
  }

  // --------------------------------------------------------------- lemmas

  /** Appending a digit shifts the value one place and adds the digit. */
  lemma EvalSnoc(t: string, c: char, b: nat)
    requires 2 <= b <= 10
    requires forall i :: 0 <= i < |t| ==> IsDigit(t[i], b)
    requires IsDigit(c, b)
    ensures Eval(t + [c], b) == Eval(t, b) * b + (c as int - '0' as int)
  {
    assert (t + [c])[..|t + [c]| - 1] == t;
  }

  lemma DivShrinks(n: nat, b: nat)
    requires 2 <= b <= n
    ensures n / b < n
  {
    var q := n / b;
    assert q * b <= n;
    assert q * 2 <= q * b;
  }

  /** The value of a rendering of at least two digits, one place at a time. */
  lemma EvalRenderStep(n: nat, b: nat)
    requires 2 <= b <= 10 && b <= n
    ensures Eval(Render(n, b), b) == Eval(Render(n / b, b), b) * b + n % b
  {
    assert Render(n, b) == Render(n / b, b) + [DigitChar(n % b)];
    EvalSnoc(Render(n / b, b), DigitChar(n % b), b);
  }

  lemma DivMod(n: nat, b: nat)
    requires 2 <= b
    ensures (n / b) * b + n % b == n
  {
  }

  /** Reading a rendering gives the number back. */
  lemma {:induction false} EvalRender(n: nat, b: nat)
    requires 2 <= b <= 10
    ensures Eval(Render(n, b), b) == n
    decreases n
  {
    if n < b {
      assert Render(n, b) == [] + [DigitChar(n)];
      EvalSnoc([], DigitChar(n), b);
    } else {
      EvalRenderStep(n, b);
      DivShrinks(n, b);
      EvalRender(n / b, b);
      DivMod(n, b);
    }
  }

  lemma RenderRoundTrip(n: nat, b: nat)
    requires 2 <= b <= 10
    ensures ParseNat(Render(n, b), b) == Some(n)
  {
    EvalRender(n, b);
  }

  /** Distinct numbers have distinct renderings. */
  lemma RenderInjective(m: nat, n: nat, b: nat)
    requires 2 <= b <= 10
    ensures Render(m, b) == Render(n, b) <==> m == n
  {
    EvalRender(m, b);
    EvalRender(n, b);
  }

  lemma DecimalRoundTrip(i: int)
    ensures ParseDecimal(Decimal(i)) == Some(i)
  {
    if i < 0 {
      RenderRoundTrip(-i, 10);
      assert Decimal(i)[1..] == Render(-i, 10);
    } else {
      RenderRoundTrip(i, 10);
    }
  }

  lemma OctalRoundTrip(n: nat)
    ensures ParseNat(Octal(n), 8) == Some(n)
  {
    RenderRoundTrip(n, 8);
  }

  /** Octal text never carries a sign or a digit 8 or 9. */
  lemma OctalDigitsOnly(n: nat)
    ensures forall i :: 0 <= i < |Octal(n)| ==> '0' <= Octal(n)[i] <= '7'
  {
  }
}
