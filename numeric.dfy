/** The JavaScript number operations the engine relies on, over exact reals:
    `Math.floor`, `Math.ceil`, `Math.round`, `Math.min`/`Math.max`, and the
    rendering of a whole number inside a template string. */
module Numeric {

  /** Math.floor: the greatest integer not above `x`. */
  function Floor(x: real): (n: int)
    ensures n as real <= x < n as real + 1.0
  {
    x.Floor
  }

  /** Math.ceil: the least integer not below `x`. */
  function Ceil(x: real): (n: int)
    ensures x <= n as real < x + 1.0
  {
    -Floor(-x)
  }

  /** Math.round: the nearest integer, a half going up (towards +infinity). */
  function Round(x: real): (n: int)
    ensures x - 0.5 < n as real <= x + 0.5
  {
    Floor(x + 0.5)
  }

  function MinReal(a: real, b: real): real { if a <= b then a else b }

  function MaxReal(a: real, b: real): real { if a >= b then a else b }

  /** Math.max(lo, Math.min(hi, n)) on integers. */
  function ClampInt(n: int, lo: int, hi: int): (c: int)
    requires lo <= hi
    ensures lo <= c <= hi
    ensures lo <= n <= hi ==> c == n
  {
    if n < lo then lo else if n > hi then hi else n
  }

  lemma RoundMonotone(x: real, y: real)
    requires x <= y
    ensures Round(x) <= Round(y)
  {
  }

  lemma RoundOfWhole(n: int)
    ensures Round(n as real) == n
  {
  }

  /** Rounding never moves a value past a whole number on the same side. */
  lemma RoundBelowWhole(x: real, n: int)
    requires x <= n as real
    ensures Round(x) <= n
  {
  }

  lemma MulNonNegative(x: real, y: real)
    requires 0.0 <= x && 0.0 <= y
    ensures 0.0 <= x * y
  {
  }

  /** k * (u1 / d) <= k * (u2 / d) for k >= 0, u1 <= u2 and d > 0. */
  lemma ScaledRatioMonotone(k: real, u1: real, u2: real, d: real)
    requires k >= 0.0 && u1 <= u2 && d > 0.0
    ensures k * (u1 / d) <= k * (u2 / d)
  {
    MulNonNegative(u2 - u1, 1.0 / d);
    assert u2 / d - u1 / d == (u2 - u1) * (1.0 / d);
    MulNonNegative(k, u2 / d - u1 / d);
  }

  /** Linear interpolation from `a` (at fraction 0) to `b` (at fraction 1). */
  function Lerp(a: real, b: real, fraction: real): real {
    a + fraction * (b - a)
  }

  /** An interpolated value lies between its two end points. */
  lemma LerpBetween(a: real, b: real, f: real)
    requires a <= b && 0.0 <= f <= 1.0
    ensures a <= Lerp(a, b, f) <= b
  {
    MulNonNegative(f, b - a);
    MulNonNegative(1.0 - f, b - a);
  }

  /** Moving further along a rising segment never gives less. */
  lemma LerpMonotoneInFraction(a: real, b: real, f1: real, f2: real)
    requires a <= b && f1 <= f2
    ensures Lerp(a, b, f1) <= Lerp(a, b, f2)
  {
    MulNonNegative(f2 - f1, b - a);
  }

  /** Raising both end points never lowers an interpolated value. */
  lemma LerpMonotoneInEnds(a1: real, b1: real, a2: real, b2: real, f: real)
    requires a1 <= a2 && b1 <= b2 && 0.0 <= f <= 1.0
    ensures Lerp(a1, b1, f) <= Lerp(a2, b2, f)
  {
    assert Lerp(a1, b1, f) == (1.0 - f) * a1 + f * b1;
    assert Lerp(a2, b2, f) == (1.0 - f) * a2 + f * b2;
    MulNonNegative(1.0 - f, a2 - a1);
    MulNonNegative(f, b2 - b1);
  }

  /** The decimal digit character for 0..9. */
  function DigitChar(d: int): (c: char)
    requires 0 <= d <= 9
    ensures '0' <= c <= '9' && c as int - '0' as int == d
  {
    ('0' as int + d) as char
  }

  predicate IsDigits(s: string) {
    forall i :: 0 <= i < |s| ==> '0' <= s[i] <= '9'
  }

  /** The decimal text of a natural number, as `${n}` renders it: no sign,
      no leading zero except for 0 itself. */
  function NatToString(n: nat): (s: string)
    ensures |s| >= 1 && IsDigits(s)
    ensures |s| > 1 ==> s[0] != '0'
  {
    if n < 10 then [DigitChar(n)] else NatToString(n / 10) + [DigitChar(n % 10)]
  }

  /** The decimal text of an integer, with a leading '-' when negative. */
  function IntToString(n: int): (s: string)
    ensures |s| >= 1
    ensures n < 0 <==> s[0] == '-'
  {
    if n < 0 then "-" + NatToString(-n) else NatToString(n)
  }

  /** Reads a string of decimal digits back as a number. */
  function DigitsValue(s: string): nat
    requires IsDigits(s)
  {
    if s == [] then 0 else DigitsValue(s[..|s| - 1]) * 10 + (s[|s| - 1] as int - '0' as int)
  }

  /** NatToString loses nothing: reading the digits back gives the number. */
  lemma {:induction false} NatToStringRoundTrip(n: nat)
    ensures DigitsValue(NatToString(n)) == n
  {
    if n >= 10 {
      var s := NatToString(n);
      assert s[..|s| - 1] == NatToString(n / 10);
      NatToStringRoundTrip(n / 10);
    }
  }

  /** Hence different numbers render differently. */
  lemma NatToStringInjective(m: nat, n: nat)
    requires NatToString(m) == NatToString(n)
    ensures m == n
  {
    NatToStringRoundTrip(m);
    NatToStringRoundTrip(n);
  }
}
