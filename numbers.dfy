/** Numbers as the sequential scale sees them: a JavaScript number is either a
    value (modelled as an unbounded real, without rounding) or NaN. */
module Numbers {

  datatype Num = Real(v: real) | NaN

  /** Distance between two reals. */
  function Dist(a: real, b: real): (r: real) {
    if a <= b then b - a else a - b
  }

  /** Clipping of a normalized parameter into [0, 1], as `Math.max(0, Math.min(1, t))`:
      the result is the point of the unit interval nearest to t, and NaN stays NaN. */
  function Clamp01(t: Num): (r: Num)
    ensures r.NaN? <==> t.NaN?
    ensures r.Real? ==> 0.0 <= r.v <= 1.0
    ensures r.Real? ==> forall y: real :: 0.0 <= y <= 1.0 ==> Dist(r.v, t.v) <= Dist(y, t.v)
  {
    match t
    case NaN => NaN
    case Real(x) => Real(if x < 0.0 then 0.0 else if x > 1.0 then 1.0 else x)
  }

  /** Clipping leaves a parameter that is already in [0, 1] alone, and is idempotent. */
  lemma Clamp01Fixes(t: Num)
    ensures t.Real? && 0.0 <= t.v <= 1.0 ==> Clamp01(t) == t
    ensures Clamp01(Clamp01(t)) == Clamp01(t)
  {
    if t.Real? {
      // The nearest point of [0, 1] to a point of [0, 1] is that point itself.
      var r := Clamp01(t);
      if 0.0 <= t.v <= 1.0 {
        assert Dist(r.v, t.v) <= Dist(t.v, t.v);
      }
      assert Dist(Clamp01(r).v, r.v) <= Dist(r.v, r.v);
    }
  }
}
