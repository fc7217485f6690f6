/**
  The part of java.math.BigDecimal the product family relies on: an exact
  decimal unscaled × 10^(-scale), multiplication and setScale with HALF_UP
  rounding.
 */
module Decimals {

  /** unscaled × 10^(-scale); scale may be negative, as in BigDecimal. */
  datatype Decimal = Decimal(unscaled: int, scale: int)

  /** BigDecimal.ZERO: unscaled 0 at scale 0 (it renders as "0", not "0.00"). */
  const Zero := Decimal(0, 0)

  function Pow10(n: nat): (r: nat)
    ensures r >= 1
  {
    if n == 0 then 1 else 10 * Pow10(n - 1)
  }

  function Abs(x: int): nat
  {
    if x < 0 then -x else x
  }

  /**
    k is num / den rounded to the nearest integer, a tie going away from
    zero (RoundingMode.HALF_UP).
   */
  ghost predicate RoundsHalfUp(k: int, num: int, den: int)
  {
    && den > 0
    && 2 * Abs(num - k * den) <= den
    && (2 * Abs(num - k * den) == den ==> Abs(k * den) > Abs(num))
  }

  /** k is u × 10^e rounded half-up: exact when e >= 0, a rounded quotient otherwise. */
  ghost predicate RoundsHalfUpScaled(k: int, u: int, e: int)
  {
    if e >= 0 then k == u * Pow10(e) else RoundsHalfUp(k, u, Pow10(-e))
  }

  /** HALF_UP determines its result: no two integers round the same quotient. */
  lemma RoundsHalfUpUnique(k1: int, k2: int, num: int, den: int)
    requires RoundsHalfUp(k1, num, den) && RoundsHalfUp(k2, num, den)
    ensures k1 == k2
  {
    MultipleFacts(k1, k2, den);
    MultipleFacts(k2, k1, den);
  }

  /** What the multiples a·den and b·den of a positive den reveal about a and b. */
  lemma MultipleFacts(a: int, b: int, den: int)
    requires den > 0
    ensures b - a >= 1 ==> b * den - a * den >= den
    ensures b - a >= 2 ==> b * den - a * den >= 2 * den
    ensures a >= 0 ==> a * den >= 0
    ensures b <= 0 ==> b * den <= 0
  {
    assert b * den - a * den == (b - a) * den;
  }

  /** num / den rounded half-up to an integer, for a positive divisor den. */
  function DivHalfUp(num: int, den: int): (k: int)
    requires den > 0
    ensures RoundsHalfUp(k, num, den)
  {
    var k := if num >= 0 then (2 * num + den) / (2 * den) else -((2 * -num + den) / (2 * den));
    DivHalfUpBounds(num, den, k);
    k
  }

  /** The integer facts behind DivHalfUp: the remainder lies in [-den/2, den/2], a tie rounding away from zero. */
  lemma DivHalfUpBounds(num: int, den: int, k: int)
    requires den > 0
    requires k == if num >= 0 then (2 * num + den) / (2 * den) else -((2 * -num + den) / (2 * den))
    ensures RoundsHalfUp(k, num, den)
  {
    var b := Abs(num);
    var m := (2 * b + den) / (2 * den);
    var r := (2 * b + den) % (2 * den);
    var md := m * den;
    assert 2 * b + den == 2 * md + r && 0 <= r < 2 * den by {
      assert (2 * den) * m == 2 * md;
    }
    if num >= 0 {
      assert k * den == md;
    } else {
      assert k * den == -md by { assert k == -m; }
    }
  }

  /** BigDecimal.multiply: the exact product, at the sum of the scales. */
  function Multiply(a: Decimal, b: Decimal): Decimal
  {
    Decimal(a.unscaled * b.unscaled, a.scale + b.scale)
  }

  /**
    BigDecimal.setScale(n, RoundingMode.HALF_UP): the new unscaled value is
    d × 10^n rounded half-up, that is unscaled × 10^(n - scale).
   */
  function SetScaleHalfUp(d: Decimal, n: int): (r: Decimal)
    ensures r.scale == n
    ensures RoundsHalfUpScaled(r.unscaled, d.unscaled, n - d.scale)
  {
    if d.scale <= n then Decimal(d.unscaled * Pow10(n - d.scale), n)
    else Decimal(DivHalfUp(d.unscaled, Pow10(d.scale - n)), n)
  }
}
