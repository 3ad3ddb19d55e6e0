/** The linear normalizer of a sequential scale: maps an input x of the domain
    (d0, d1) to the interpolation parameter t = (x - d0) / (d1 - d0). */
module Normalizer {
  import opened Numbers

  /** A domain whose two endpoints are the same number. Two NaN endpoints are
      not equal to each other, so a NaN domain is never degenerate. */
  predicate Degenerate(d0: Num, d1: Num) {
    d0.Real? && d1.Real? && d0.v == d1.v
  }

  /** A domain over which the parameter is a proper linear function of x. */
  predicate Proper(d0: Num, d1: Num) {
    d0.Real? && d1.Real? && d0.v != d1.v
  }

  /** The inverse direction: the domain value whose parameter is t. */
  function Denormalize(d0: real, d1: real, t: real): (r: real) {
    d0 + t * (d1 - d0)
  }

  /** x lies between a and b (either order, bounds included). */
  predicate Between(a: real, b: real, x: real) {
    (a <= x <= b) || (b <= x <= a)
  }

  /** The normalized parameter of x. A degenerate domain gives the midpoint 0.5
      for every x; a NaN endpoint gives NaN; otherwise t is the unique parameter
      that denormalizes back to x. */
  function Normalize(d0: Num, d1: Num, x: real): (t: Num)
    ensures t.NaN? <==> d0.NaN? || d1.NaN?
    ensures Degenerate(d0, d1) ==> t == Real(0.5)
    ensures Proper(d0, d1) ==> t.Real? && Denormalize(d0.v, d1.v, t.v) == x
  {
    if d0.NaN? || d1.NaN? then NaN
    else if d0.v == d1.v then Real(0.5)
    else Real((x - d0.v) / (d1.v - d0.v))
  }

  /** Normalizing a denormalized parameter gives the parameter back, so over a
      proper domain normalization is a bijection of the reals. */
  lemma NormalizeDenormalize(d0: real, d1: real, t: real)
    requires d0 != d1
    ensures Normalize(Real(d0), Real(d1), Denormalize(d0, d1, t)) == Real(t)
  {
    var x := Denormalize(d0, d1, t);
    var s := Normalize(Real(d0), Real(d1), x).v;
    assert d0 + s * (d1 - d0) == d0 + t * (d1 - d0);
    assert (s - t) * (d1 - d0) == 0.0;
  }

  /** The first endpoint maps to 0, the second to 1 and their midpoint to 0.5. */
  lemma NormalizeEndpoints(d0: real, d1: real)
    requires d0 != d1
    ensures Normalize(Real(d0), Real(d1), d0) == Real(0.0)
    ensures Normalize(Real(d0), Real(d1), d1) == Real(1.0)
    ensures Normalize(Real(d0), Real(d1), (d0 + d1) / 2.0) == Real(0.5)
  {
    NormalizeDenormalize(d0, d1, 0.0);
    NormalizeDenormalize(d0, d1, 1.0);
    NormalizeDenormalize(d0, d1, 0.5);
  }

  /** The parameter follows the direction of the domain: it increases with x
      over an increasing domain and decreases with x over a reversed one. */
  lemma NormalizeMonotone(d0: real, d1: real, x: real, y: real)
    requires d0 != d1 && x <= y
    ensures d0 < d1 ==> Normalize(Real(d0), Real(d1), x).v <= Normalize(Real(d0), Real(d1), y).v
    ensures d1 < d0 ==> Normalize(Real(d0), Real(d1), y).v <= Normalize(Real(d0), Real(d1), x).v
  {
    var tx := Normalize(Real(d0), Real(d1), x).v;
    var ty := Normalize(Real(d0), Real(d1), y).v;
    assert (ty - tx) * (d1 - d0) == y - x;
  }

  /** x lies at or beyond the first endpoint, on the side away from the second. */
  predicate BeyondFirst(d0: real, d1: real, x: real) {
    (d0 < d1 && x <= d0) || (d1 < d0 && d0 <= x)
  }

  /** x lies at or beyond the second endpoint, on the side away from the first. */
  predicate BeyondSecond(d0: real, d1: real, x: real) {
    (d0 < d1 && d1 <= x) || (d1 < d0 && x <= d1)
  }

  /** With clamping, inputs at or beyond the first endpoint saturate to 0,
      inputs at or beyond the second to 1, and inputs between the endpoints keep
      their parameter. Sides follow the domain's direction, so a reversed
      domain clamps correctly too. */
  lemma ClampedNormalize(d0: real, d1: real, x: real)
    requires d0 != d1
    ensures BeyondFirst(d0, d1, x) ==> Clamp01(Normalize(Real(d0), Real(d1), x)) == Real(0.0)
    ensures BeyondSecond(d0, d1, x) ==> Clamp01(Normalize(Real(d0), Real(d1), x)) == Real(1.0)
    ensures Between(d0, d1, x) ==> Clamp01(Normalize(Real(d0), Real(d1), x)) == Normalize(Real(d0), Real(d1), x)
  {
    NormalizeEndpoints(d0, d1);
    // Compare x's parameter with those of the endpoints, 0 and 1.
    if x <= d0 { NormalizeMonotone(d0, d1, x, d0); } else { NormalizeMonotone(d0, d1, d0, x); }
    if x <= d1 { NormalizeMonotone(d0, d1, x, d1); } else { NormalizeMonotone(d0, d1, d1, x); }
    Clamp01Fixes(Normalize(Real(d0), Real(d1), x));
  }
}
