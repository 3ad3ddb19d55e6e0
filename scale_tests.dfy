/** The scale's documented behaviour, one scenario per case of its test suite
    (except the case that passes the domain as a `Set`, whose iteration is not
    modelled): each method builds scales through the object's interface and
    its postconditions state what the suite expects to observe. */
module ScaleTests {
  import opened Numbers
  import opened Sequential
  import opened Interpolators
  import opened Scale

  /** Defaults: domain [0, 1], identity interpolator, no clamping, unknown
      undefined, and every input, in range or not, maps to itself. */
  method Defaults() returns (domain: seq<Num>, at042: Num, clamped: bool, unknown: Out, outs: seq<Out>)
    ensures domain == [Real(0.0), Real(1.0)]
    ensures at042 == Real(0.42)
    ensures !clamped && unknown == Undefined
    ensures outs == [Val(Real(-0.5)), Val(Real(0.0)), Val(Real(0.5)), Val(Real(1.0)), Val(Real(1.5))]
  {
    var s := new SequentialScale();
    domain := s.Domain();
    at042 := Apply(s.interpolator, Real(0.42));
    clamped, unknown := s.clamp, s.unknown;
    DefaultIsIdentity(-0.5, Missing);
    DefaultIsIdentity(0.0, Missing);
    DefaultIsIdentity(0.5, Missing);
    DefaultIsIdentity(1.0, Missing);
    DefaultIsIdentity(1.5, Missing);
    var a := s.Call(Number(Real(-0.5)));
    var b := s.Call(Number(Real(0.0)));
    var c := s.Call(Number(Real(0.5)));
    var d := s.Call(Number(Real(1.0)));
    var e := s.Call(Number(Real(1.5)));
    outs := [a, b, c, d, e];
  }

  /** `clamp(true)`: the getter reports it, and outputs saturate at 0 and 1. */
  method ClampEnablesClamping() returns (clamped: bool, outs: seq<Out>)
    ensures clamped
    ensures outs == [Val(Real(0.0)), Val(Real(0.0)), Val(Real(0.5)), Val(Real(1.0)), Val(Real(1.0))]
  {
    var s := new SequentialScale();
    s := s.SetClamp(true);
    clamped := s.clamp;
    ClampLaw(s.State(), -0.5);
    ClampLaw(s.State(), 0.0);
    ClampLaw(s.State(), 0.5);
    ClampLaw(s.State(), 1.0);
    ClampLaw(s.State(), 1.5);
    DefaultIsIdentity(0.5, Missing);
    var a := s.Call(Number(Real(-0.5)));
    var b := s.Call(Number(Real(0.0)));
    var c := s.Call(Number(Real(0.5)));
    var d := s.Call(Number(Real(1.0)));
    var e := s.Call(Number(Real(1.5)));
    outs := [a, b, c, d, e];
  }

  /** `unknown(-1)`: undefined, NaN and "N/A" give -1; 0.4 still maps to 0.4. */
  method UnknownSetsMissingOutput() returns (unknown: Out, outs: seq<Out>)
    ensures unknown == Val(Real(-1.0))
    ensures outs == [Val(Real(-1.0)), Val(Real(-1.0)), Val(Real(-1.0)), Val(Real(0.4))]
  {
    var s := new SequentialScale();
    s := s.SetUnknown(Val(Real(-1.0)));
    unknown := s.unknown;
    var a := s.Call(Missing);
    var b := s.Call(Number(NaN));
    var c := s.Call(NonNumeric("N/A"));
    var d := s.Call(Number(Real(0.4)));
    outs := [a, b, c, d];
  }

  /** `domain([-1.2, 2.4])` (the values after numeric coercion): the endpoints
      map to 0 and 1, the midpoint 0.6 to 0.5. */
  method DomainCoerced() returns (domain: seq<Num>, outs: seq<Out>)
    ensures domain == [Real(-1.2), Real(2.4)]
    ensures outs == [Val(Real(0.0)), Val(Real(0.5)), Val(Real(1.0))]
  {
    var s := new SequentialScale();
    s := s.SetDomain([Real(-1.2), Real(2.4)]);
    domain := s.Domain();
    DomainEndpointsLaw(Default(), [Real(-1.2), Real(2.4)]);
    var a := s.Call(Number(Real(-1.2)));
    var b := s.Call(Number(Real(0.6)));
    var c := s.Call(Number(Real(2.4)));
    outs := [a, b, c];
  }

  /** `domain([2, 2])`: stored as given; every input maps to 0.5. */
  method DomainDegenerate() returns (domain: seq<Num>, outs: seq<Out>)
    ensures domain == [Real(2.0), Real(2.0)]
    ensures outs == [Val(Real(0.5)), Val(Real(0.5)), Val(Real(0.5))]
  {
    var s := new SequentialScale();
    s := s.SetDomain([Real(2.0), Real(2.0)]);
    domain := s.Domain();
    var a := s.Call(Number(Real(-1.2)));
    var b := s.Call(Number(Real(0.6)));
    var c := s.Call(Number(Real(2.4)));
    outs := [a, b, c];
  }

  /** `domain([NaN, 2])`: the NaN and the 2 are kept; every input gives NaN. */
  method DomainNaN() returns (domain: seq<Num>, outs: seq<Out>)
    ensures |domain| == 2 && domain[0].NaN? && domain[1] == Real(2.0)
    ensures outs == [Val(NaN), Val(NaN), Val(NaN)]
  {
    var s := new SequentialScale();
    s := s.SetDomain([NaN, Real(2.0)]);
    domain := s.Domain();
    var a := s.Call(Number(Real(-1.2)));
    var b := s.Call(Number(Real(0.6)));
    var c := s.Call(Number(Real(2.4)));
    outs := [a, b, c];
  }

  /** `domain([-1, 100, 200])` keeps only the first two values. */
  method DomainFirstTwo() returns (domain: seq<Num>)
    ensures domain == [Real(-1.0), Real(100.0)]
  {
    var s := new SequentialScale();
    s := s.SetDomain([Real(-1.0), Real(100.0), Real(200.0)]);
    domain := s.Domain();
  }

  /** `copy()`: the copy starts with the same domain and clamp flag; each
      later change to one scale leaves the other's domain and flag alone. */
  method CopyIsolated() returns (d2: seq<Num>, c2: bool, d2After: seq<Num>, c2After: bool, d1After: seq<Num>, c1After: bool)
    ensures d2 == [Real(1.0), Real(3.0)] && c2
    ensures d2After == [Real(1.0), Real(3.0)] && c2After
    ensures d1After == [Real(-1.0), Real(2.0)] && !c1After
  {
    var s1 := new SequentialScale();
    s1 := s1.SetDomain([Real(1.0), Real(3.0)]);
    s1 := s1.SetClamp(true);
    var s2 := s1.Copy();
    d2, c2 := s2.Domain(), s2.clamp;
    s1 := s1.SetDomain([Real(-1.0), Real(2.0)]);
    d2After := s2.Domain();
    s1 := s1.SetClamp(false);
    c2After := s2.clamp;
    s2 := s2.SetDomain([Real(3.0), Real(4.0)]);
    d1After := s1.Domain();
    s2 := s2.SetClamp(true);
    c1After := s1.clamp;
  }

  /** `interpolator(i1)` returns the scale, the getter then gives i1, and the
      output is i1 at the parameter, also outside [0, 1]: -0.5 maps to -1. */
  method InterpolatorSets() returns (before: Interpolator, chained: bool, after: Interpolator, outs: seq<Out>)
    ensures before == Identity && chained && after == Affine(2.0, 0.0)
    ensures outs == [Val(Real(-1.0)), Val(Real(0.0)), Val(Real(1.0))]
  {
    var s := new SequentialScale.OfInterpolator(Identity);
    before := s.interpolator;
    var self := s.SetInterpolator(Affine(2.0, 0.0));
    chained := self == s;
    after := s.interpolator;
    UnclampedLaw(s.State(), -0.5);
    UnclampedLaw(s.State(), 0.0);
    UnclampedLaw(s.State(), 0.5);
    var a := s.Call(Number(Real(-0.5)));
    var b := s.Call(Number(Real(0.0)));
    var c := s.Call(Number(Real(0.5)));
    outs := [a, b, c];
  }

  /** `range()` of the interpolator t => t * 2 + 1 is [1, 3]. */
  method RangeComputed() returns (range: seq<Num>)
    ensures range == [Real(1.0), Real(3.0)]
  {
    var s := new SequentialScale.OfInterpolator(Affine(2.0, 1.0));
    range := s.Range();
  }

  /** `range([1, 3])` installs an interpolator giving 2 at 0.5, and `range()`
      then reports [1, 3]. */
  method RangeSets() returns (mid: Num, range: seq<Num>)
    ensures mid == Real(2.0)
    ensures range == [Real(1.0), Real(3.0)]
  {
    var s := new SequentialScale();
    s := s.SetRange([Real(1.0), Real(3.0)]);
    mid := Apply(s.interpolator, Real(0.5));
    range := s.Range();
  }

  /** `range([1, 3, 10])` ignores the 10: 2 at 0.5 and range [1, 3]. */
  method RangeIgnoresExtra() returns (mid: Num, range: seq<Num>)
    ensures mid == Real(2.0)
    ensures range == [Real(1.0), Real(3.0)]
  {
    var s := new SequentialScale();
    s := s.SetRange([Real(1.0), Real(3.0), Real(10.0)]);
    mid := Apply(s.interpolator, Real(0.5));
    range := s.Range();
  }

  /** `scaleSequential([1, 3])` installs the same interpolator as `range([1, 3])`. */
  method ConstructorRange() returns (mid: Num, range: seq<Num>)
    ensures mid == Real(2.0)
    ensures range == [Real(1.0), Real(3.0)]
  {
    var s := new SequentialScale.OfRange([Real(1.0), Real(3.0)]);
    mid := Apply(s.interpolator, Real(0.5));
    range := s.Range();
  }
}
