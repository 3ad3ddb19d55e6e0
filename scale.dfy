/** The sequential scale object: its configuration lives in fields that the
    chainable setters update in place; evaluation and the getters only read. */
module Scale {
  import opened Numbers
  import opened Normalizer
  import opened Sequential
  import Interpolators

  class SequentialScale {
    var x0: Num
    var x1: Num
    var clamp: bool
    var unknown: Out
    var interpolator: Interpolators.Interpolator

    /** The configuration the fields hold. */
    function State(): (c: Config)
      reads this
    {
      Config(x0, x1, clamp, unknown, interpolator)
    }

    /** `scaleSequential()`. */
    constructor ()
      ensures State() == Default()
    {
      x0, x1 := Real(0.0), Real(1.0);
      clamp := false;
      unknown := Undefined;
      interpolator := Interpolators.Identity;
    }

    /** `scaleSequential(interpolator)`. */
    constructor OfInterpolator(i: Interpolators.Interpolator)
      ensures State() == Default().(interpolator := i)
    {
      x0, x1 := Real(0.0), Real(1.0);
      clamp := false;
      unknown := Undefined;
      interpolator := i;
    }

    /** `scaleSequential(range)`. */
    constructor OfRange(values: seq<Num>)
      requires |values| >= 2
      ensures State() == ReplaceRange(Default(), values)
    {
      x0, x1 := Real(0.0), Real(1.0);
      clamp := false;
      unknown := Undefined;
      interpolator := Interpolators.Linear(values[0], values[1]);
    }

    /** `scale(x)`: the parameter of x (0.5 over a degenerate domain, clipped
        when clamping) handed to the interpolator; the unknown value for
        missing or NaN-coercing input. Nothing changes. */
    method Call(x: Input) returns (r: Out)
      ensures r == Evaluate(State(), x)
    {
      if x.Missing? || Coerce(x).NaN? {
        return unknown;
      }
      var t := Normalize(x0, x1, Coerce(x).v);
      if clamp && !Degenerate(x0, x1) {
        t := Clamp01(t);
      }
      r := Val(Interpolators.Apply(interpolator, t));
    }

    /** `domain()`: the two stored endpoints, in order. */
    function Domain(): (d: seq<Num>)
      reads this
      ensures |d| == 2 && d[0] == x0 && d[1] == x1
    {
      DomainOf(State())
    }

    /** `domain(values)`: keeps the first two values; returns the scale. */
    method SetDomain(values: seq<Num>) returns (self: SequentialScale)
      modifies this
      ensures self == this
      ensures State() == ReplaceDomain(old(State()), values)
    {
      x0, x1 := Element(values, 0), Element(values, 1);
      self := this;
    }

    /** `clamp(flag)`; returns the scale. */
    method SetClamp(flag: bool) returns (self: SequentialScale)
      modifies this
      ensures self == this
      ensures State() == old(State()).(clamp := flag)
    {
      clamp := flag;
      self := this;
    }

    /** `unknown(value)`; returns the scale. */
    method SetUnknown(value: Out) returns (self: SequentialScale)
      modifies this
      ensures self == this
      ensures State() == old(State()).(unknown := value)
    {
      unknown := value;
      self := this;
    }

    /** `interpolator(i)`; returns the scale. */
    method SetInterpolator(i: Interpolators.Interpolator) returns (self: SequentialScale)
      modifies this
      ensures self == this
      ensures State() == old(State()).(interpolator := i)
    {
      interpolator := i;
      self := this;
    }

    /** `range()`: the interpolator's outputs at 0 and at 1. */
    function Range(): (r: seq<Num>)
      reads this
      ensures r == [Interpolators.Apply(interpolator, Real(0.0)), Interpolators.Apply(interpolator, Real(1.0))]
    {
      RangeOf(State())
    }

    /** `range(values)`: installs the interpolator between the first two
        values; returns the scale. */
    method SetRange(values: seq<Num>) returns (self: SequentialScale)
      requires |values| >= 2
      modifies this
      ensures self == this
      ensures State() == ReplaceRange(old(State()), values)
    {
      interpolator := Interpolators.FromRange(values);
      self := this;
    }

    /** `copy()`: a new scale with the same configuration. Being a distinct
        object, later setter calls on either leave the other as it was. */
    method Copy() returns (c: SequentialScale)
      ensures fresh(c) && c != this
      ensures c.State() == State()
    {
      c := new SequentialScale();
      c.x0, c.x1 := x0, x1;
      c.clamp := clamp;
      c.unknown := unknown;
      c.interpolator := interpolator;
    }
  }
}
