/** The sequential scale's configuration as a value, its evaluation, the
    configuration updates its setters perform, and the laws they obey. */
module Sequential {
  import opened Numbers
  import opened Normalizer
  import opened Interpolators

  /** What a caller may pass to the scale: nothing (undefined or null), a
      number (possibly NaN), or some other value whose numeric coercion is NaN
      (such as the string "N/A"). */
  datatype Input = Missing | Number(n: Num) | NonNumeric(text: string)

  /** What the scale returns: the `undefined` sentinel or a number. */
  datatype Out = Undefined | Val(n: Num)

  /** The scale's state: domain endpoints, clamp flag, unknown substitute and
      interpolator. */
  datatype Config = Config(x0: Num, x1: Num, clamp: bool, unknown: Out, interpolator: Interpolator)

  /** The state of a freshly constructed scale: domain [0, 1], no clamping,
      unknown undefined, identity interpolator. */
  function Default(): (r: Config) {
    Config(Real(0.0), Real(1.0), false, Undefined, Identity)
  }

  /** The number an input stands for: NaN for anything but a number. */
  function Coerce(x: Input): (r: Num) {
    match x
    case Number(n) => n
    case _ => NaN
  }

  /** The parameter handed to the interpolator for input value v. */
  function Param(c: Config, v: real): (r: Num) {
    var t := Normalize(c.x0, c.x1, v);
    if c.clamp then Clamp01(t) else t
  }

  /** Evaluating the scale at x: missing input and input that coerces to NaN
      give the unknown value; anything else goes through the normalizer, the
      optional clamp and the interpolator, and comes out as a number (NaN when
      a domain endpoint is NaN, since the model's interpolators map NaN to NaN). */
  function Evaluate(c: Config, x: Input): (r: Out)
    ensures x.Missing? || Coerce(x).NaN? ==> r == c.unknown
    ensures Coerce(x).Real? ==> r.Val? && (c.x0.NaN? || c.x1.NaN? ==> r.n.NaN?)
  {
    if x.Missing? || Coerce(x).NaN? then c.unknown
    else Val(Apply(c.interpolator, Param(c, Coerce(x).v)))
  }

  /** `domain()`. */
  function DomainOf(c: Config): (r: seq<Num>) {
    [c.x0, c.x1]
  }

  /** The i-th value passed to `domain(values)`; an absent one coerces to NaN. */
  function Element(values: seq<Num>, i: nat): (r: Num) {
    if i < |values| then values[i] else NaN
  }

  /** `domain(values)`: the first two values become the endpoints; nothing
      else changes. */
  function ReplaceDomain(c: Config, values: seq<Num>): (r: Config)
    ensures |values| >= 2 ==> DomainOf(r) == values[..2]
    ensures r.(x0 := c.x0, x1 := c.x1) == c
  {
    c.(x0 := Element(values, 0), x1 := Element(values, 1))
  }

  /** `range()`. */
  function RangeOf(c: Config): (r: seq<Num>) {
    Range(c.interpolator)
  }

  /** `range(values)`: installs the number interpolator between the first
      two values, which `range()` then reports when they are numbers; nothing
      else changes. */
  function ReplaceRange(c: Config, values: seq<Num>): (r: Config)
    requires |values| >= 2
    ensures values[0].Real? && values[1].Real? ==> RangeOf(r) == values[..2]
    ensures r.(interpolator := c.interpolator) == c
  {
    c.(interpolator := FromRange(values))
  }

  // ---------------------------------------------------------------------------
  // Laws

  /** With the defaults every number evaluates to itself, in range or not,
      and missing or non-numeric input gives undefined. */
  lemma DefaultIsIdentity(v: real, x: Input)
    ensures Evaluate(Default(), Number(Real(v))) == Val(Real(v))
    ensures Coerce(x).NaN? ==> Evaluate(Default(), x) == Undefined
    ensures DomainOf(Default()) == [Real(0.0), Real(1.0)]
  {
    NormalizeDenormalize(0.0, 1.0, v);
  }

  /** Missing input, NaN and non-numeric input all give the configured unknown
      value, and the unknown value has no influence on any other input. */
  lemma UnknownLaw(c: Config, x: Input, u: Out)
    ensures x.Missing? || x == Number(NaN) || x.NonNumeric? ==> Evaluate(c, x) == c.unknown
    ensures x.Number? && x.n.Real? ==> Evaluate(c, x).Val? && Evaluate(c.(unknown := u), x) == Evaluate(c, x)
  {
  }

  /** Without clamping, the output is the interpolator at the input's
      parameter, even when that parameter lies outside [0, 1]. */
  lemma UnclampedLaw(c: Config, t: real)
    requires !c.clamp && Proper(c.x0, c.x1)
    ensures Evaluate(c, Number(Real(Denormalize(c.x0.v, c.x1.v, t)))) == Val(Apply(c.interpolator, Real(t)))
  {
    NormalizeDenormalize(c.x0.v, c.x1.v, t);
  }

  /** With clamping, inputs beyond either end of the domain saturate to the
      range value of that end, inputs inside the domain are unaffected by the
      flag, and every output lies within the range. */
  lemma ClampLaw(c: Config, v: real)
    requires c.clamp && Proper(c.x0, c.x1)
    ensures BeyondFirst(c.x0.v, c.x1.v, v) ==> Evaluate(c, Number(Real(v))) == Val(RangeOf(c)[0])
    ensures BeyondSecond(c.x0.v, c.x1.v, v) ==> Evaluate(c, Number(Real(v))) == Val(RangeOf(c)[1])
    ensures Between(c.x0.v, c.x1.v, v) ==> Evaluate(c, Number(Real(v))) == Evaluate(c.(clamp := false), Number(Real(v)))
    ensures RangeOf(c)[0].Real? && RangeOf(c)[1].Real? ==>
      var r := Evaluate(c, Number(Real(v)));
      r.Val? && r.n.Real? && Between(RangeOf(c)[0].v, RangeOf(c)[1].v, r.n.v)
  {
    ClampedNormalize(c.x0.v, c.x1.v, v);
    var t := Param(c, v);
    if RangeOf(c)[0].Real? && RangeOf(c)[1].Real? {
      ApplyWithinRange(c.interpolator, t.v);
    }
  }

  /** A degenerate domain maps every number to the interpolator's midpoint,
      whatever the input and the clamp flag. */
  lemma DegenerateLaw(c: Config, v: real)
    requires Degenerate(c.x0, c.x1)
    ensures Evaluate(c, Number(Real(v))) == Val(Apply(c.interpolator, Real(0.5)))
  {
    Clamp01Fixes(Real(0.5));
  }

  /** A domain with a NaN endpoint hands every number's evaluation a NaN
      parameter, so the output is the interpolator at NaN, whatever the
      interpolator; the model's interpolators all map NaN to NaN. */
  lemma NaNDomainLaw(c: Config, v: real)
    requires c.x0.NaN? || c.x1.NaN?
    ensures Evaluate(c, Number(Real(v))) == Val(Apply(c.interpolator, NaN))
    ensures Evaluate(c, Number(Real(v))) == Val(NaN)
  {
    assert Param(c, v).NaN?;
  }

  /** `domain(values)` keeps exactly the first two values (padding with NaN),
      changes nothing else, and setting the current domain changes nothing. */
  lemma DomainLaw(c: Config, values: seq<Num>)
    ensures |values| >= 2 ==> DomainOf(ReplaceDomain(c, values)) == values[..2]
    ensures |values| < 2 ==> DomainOf(ReplaceDomain(c, values)) == values + seq(2 - |values|, _ => NaN)
    ensures ReplaceDomain(c, values).(x0 := c.x0, x1 := c.x1) == c
    ensures ReplaceDomain(c, DomainOf(c)) == c
  {
    if |values| < 2 {
      assert |values| == 0 || |values| == 1;
    }
  }

  /** After `domain(values)` with two distinct numbers, the first maps to the
      range's first value, the second to its second, and their midpoint to the
      interpolator's midpoint, clamped or not. */
  lemma DomainEndpointsLaw(c: Config, values: seq<Num>)
    requires |values| >= 2 && Proper(values[0], values[1])
    ensures Evaluate(ReplaceDomain(c, values), Number(values[0])) == Val(RangeOf(c)[0])
    ensures Evaluate(ReplaceDomain(c, values), Number(values[1])) == Val(RangeOf(c)[1])
    ensures Evaluate(ReplaceDomain(c, values), Number(Real((values[0].v + values[1].v) / 2.0)))
         == Val(Apply(c.interpolator, Real(0.5)))
  {
    NormalizeEndpoints(values[0].v, values[1].v);
    Clamp01Fixes(Real(0.0));
    Clamp01Fixes(Real(0.5));
    Clamp01Fixes(Real(1.0));
  }

  /** `range(values)` followed by `range()` reports the first two values when
      they are numbers, and the scale's parameter 0.5 maps to their midpoint. */
  lemma RangeLaw(c: Config, values: seq<Num>)
    requires |values| >= 2 && values[0].Real? && values[1].Real?
    ensures RangeOf(ReplaceRange(c, values)) == values[..2]
    ensures Apply(ReplaceRange(c, values).interpolator, Real(0.5)) == Real((values[0].v + values[1].v) / 2.0)
    ensures DomainOf(ReplaceRange(c, values)) == DomainOf(c)
  {
    RangeOfFromRange(values);
  }

  /** For any interpolator whose range values are numbers, `range(range())`
      leaves `range()` as it was. */
  lemma RangeOfOwnRangeLaw(c: Config)
    requires RangeOf(c)[0].Real? && RangeOf(c)[1].Real?
    ensures RangeOf(ReplaceRange(c, RangeOf(c))) == RangeOf(c)
  {
    RangeOfOwnRange(c.interpolator);
  }

  /** For the model's interpolators, which are affine in t, `range(range())`
      also leaves every output of the scale unchanged. An arbitrary
      interpolator function is not determined by its range, so this law does
      not extend to it. */
  lemma AffineRangeRoundTrip(c: Config, x: Input)
    ensures Evaluate(ReplaceRange(c, RangeOf(c)), x) == Evaluate(c, x)
  {
    if !(x.Missing? || Coerce(x).NaN?) {
      AffineDeterminedByRange(c.interpolator, Param(c, Coerce(x).v));
    }
  }
}
