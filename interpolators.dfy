/** Interpolators: functions from the unit-interval parameter t to an output.
    The scale treats them as opaque; the model names the ones the scale's
    behaviour is stated with. Every one of them is affine in t, which the
    program's interpolators, arbitrary functions, need not be. */
module Interpolators {
  import opened Numbers
  import opened Normalizer

  datatype Interpolator =
    | Identity                           // t => t, the default
    | Affine(slope: real, offset: real)  // t => slope * t + offset, such as t => t * 2 + 1
    | Linear(a: Num, b: Num)             // number interpolation from a (at 0) to b (at 1)

  /** The interpolator applied to a parameter. Arithmetic on NaN gives NaN,
      so every interpolator propagates a NaN parameter; the default one
      returns its parameter. */
  function Apply(i: Interpolator, t: Num): (r: Num)
    ensures t.NaN? ==> r.NaN?
    ensures i.Identity? ==> r == t
  {
    match t
    case NaN => NaN
    case Real(x) =>
      match i
      case Identity => Real(x)
      case Affine(k, c) => Real(k * x + c)
      case Linear(a, b) =>
        if a.NaN? || b.NaN? then NaN else Real(Denormalize(a.v, b.v, x))
  }

  /** `range()`: the interpolator's outputs at 0 and at 1. For the number
      interpolator between two numbers, these are the two numbers. */
  function Range(i: Interpolator): (r: seq<Num>)
    ensures |r| == 2
    ensures i.Linear? && i.a.Real? && i.b.Real? ==> r == [i.a, i.b]
  {
    [Apply(i, Real(0.0)), Apply(i, Real(1.0))]
  }

  /** `range(values)`: the number interpolator between the first two values;
      any further values are ignored. Reading the range back gives the first
      two values when they are numbers. */
  function FromRange(values: seq<Num>): (r: Interpolator)
    requires |values| >= 2
    ensures values[0].Real? && values[1].Real? ==> Range(r) == values[..2]
  {
    Linear(values[0], values[1])
  }

  /** Installing a range and reading it back gives the first two values, exactly
      when they are both numbers or both NaN (a NaN at either end makes every
      output NaN). Between them the interpolator passes through the midpoint. */
  lemma {:induction false} RangeOfFromRange(values: seq<Num>)
    requires |values| >= 2
    ensures Range(FromRange(values)) == values[..2] <==> values[0].NaN? == values[1].NaN?
    ensures values[0].Real? && values[1].Real? ==>
      Apply(FromRange(values), Real(0.5)) == Real((values[0].v + values[1].v) / 2.0)
  {
    if values[0].NaN? != values[1].NaN? {
      assert Range(FromRange(values))[0] == NaN;
      assert Range(FromRange(values))[1] == NaN;
      assert values[..2][0].Real? || values[..2][1].Real?;
    } else {
      assert Range(FromRange(values)) == [values[0], values[1]];
    }
  }

  /** For any interpolator whose range values are numbers, installing its own
      range with `range(values)` leaves `range()` as it was. */
  lemma RangeOfOwnRange(i: Interpolator)
    requires Range(i)[0].Real? && Range(i)[1].Real?
    ensures Range(FromRange(Range(i))) == Range(i)
  {
    RangeOfFromRange(Range(i));
    assert Range(i)[..2] == Range(i);
  }

  /** The interpolators of this model are affine in t, so each is determined
      by its range: rebuilding it from `range()` with `range(values)` changes
      no output. This does not hold for an arbitrary interpolator function
      (t => t * t has range [0, 1] but is not t => t). */
  lemma {:induction false} AffineDeterminedByRange(i: Interpolator, t: Num)
    ensures Apply(FromRange(Range(i)), t) == Apply(i, t)
  {
    match t
    case NaN =>
    case Real(x) =>
      match i
      case Identity =>
      case Affine(k, c) =>
        assert Denormalize(c, k + c, x) == k * x + c;
      case Linear(a, b) =>
        if a.Real? && b.Real? {
          assert Range(i) == [a, b];
        }
  }

  /** A product of two non-negative reals is non-negative. */
  lemma MulNonNegative(a: real, b: real)
    requires 0.0 <= a && 0.0 <= b
    ensures 0.0 <= a * b
  {
  }

  /** For a parameter in [0, 1] the output lies between the two range values:
      clamping the parameter keeps the output within the range. This rests on
      the model's interpolators being affine, hence monotone, in t. */
  lemma ApplyWithinRange(i: Interpolator, t: real)
    requires 0.0 <= t <= 1.0
    requires Range(i)[0].Real? && Range(i)[1].Real?
    ensures Apply(i, Real(t)).Real?
    ensures Between(Range(i)[0].v, Range(i)[1].v, Apply(i, Real(t)).v)
  {
    var r0, r1 := Range(i)[0].v, Range(i)[1].v;
    AffineDeterminedByRange(i, Real(t));
    // The output is r0 + t * (r1 - r0), and 0 <= t * |r1 - r0| <= |r1 - r0|.
    var w := if r0 <= r1 then r1 - r0 else r0 - r1;
    MulNonNegative(t, w);
    MulNonNegative(1.0 - t, w);
  }
}
