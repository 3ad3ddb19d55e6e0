# Sequential scale (d3-scale `scaleSequential`)

A Dafny model of d3-scale's sequential scale. The scale maps a number x from
a two-point domain `(d0, d1)` to an output. It first computes the parameter
`t = (x - d0) / (d1 - d0)`. It then clips `t` into [0, 1] when clamping is on,
and passes `t` to an interpolator, which defaults to the identity. There are
two special cases:

- a degenerate domain (`d0 = d1`) gives `t = 0.5` for every input;
- missing input, NaN and input that coerces to NaN give the configured
  `unknown` value.

Around the evaluation sit chainable setters and getters for the domain, the
clamp flag, the unknown value and the interpolator. There is also `copy()`,
and `range()` / `range(values)`, which read or install a two-point number
interpolator.

The repository's scale implementation is not part of this model. Its
behaviour is taken from its test suite, `test/sequential-test.js`. Each case
of that suite is one scenario method in `ScaleTests`, except the case that
passes the domain as a `Set` (lines 48-52), whose iteration is not modelled.
Every law the suite illustrates is a lemma over all inputs.

Files and modules:

- `numbers.dfy` (`Numbers`): a number is `Real(v)` or `NaN`. `Clamp01` is
  `Math.max(0, Math.min(1, t))`.
- `normalizer.dfy` (`Normalizer`): `Normalize` and its inverse
  `Denormalize`, with the degenerate and NaN cases, monotonicity and clamp
  saturation.
- `interpolators.dfy` (`Interpolators`): the interpolators used by the
  scale's behaviour (`Identity`, `Affine(k, c)` for `t => k*t + c`, and
  `Linear(a, b)`, which `range(values)` installs), plus `Range` and
  `FromRange`.
- `sequential.dfy` (`Sequential`): the configuration as a value (`Config`),
  evaluation (`Evaluate`), the updates the setters perform (`ReplaceDomain`,
  `ReplaceRange`), and the laws.
- `scale.dfy` (`Scale`): class `SequentialScale`. Its fields hold the
  configuration. Its setters are `modifies this` methods that return the
  scale itself (chaining). `Call` is the evaluation, proved equal to
  `Evaluate` of the fields' configuration. `Copy` allocates a fresh scale.
- `scale_tests.dfy` (`ScaleTests`): one method per test case, except the
  `Set` case at lines 48-52. Each postcondition states the values the test
  expects.

A NaN input gives the unknown value (test/sequential-test.js:33).

## Model

| member | source | states |
|---|---|---|
| `Numbers.Clamp01` | test/sequential-test.js:18-27 | the clamped parameter lies in [0, 1] and is the point of [0, 1] nearest to t; NaN stays NaN |
| `Numbers.Clamp01Fixes` | test/sequential-test.js:21-25 | clamping leaves a parameter already in [0, 1] unchanged and is idempotent |
| `Normalizer.Normalize` | test/sequential-test.js:39-71 | NaN exactly when an endpoint is NaN; 0.5 for a degenerate domain; otherwise the unique t with d0 + t(d1 - d0) = x |
| `Normalizer.NormalizeDenormalize` | test/sequential-test.js:95-106 | over a proper domain, normalizing the point at parameter t gives t back, for any t, also outside [0, 1] |
| `Normalizer.NormalizeEndpoints` | test/sequential-test.js:39-46 | the first endpoint maps to 0, the second to 1, and their midpoint to 0.5 |
| `Normalizer.NormalizeMonotone` | test/sequential-test.js:18-27 | the parameter increases with x over an increasing domain and decreases over a reversed one |
| `Normalizer.ClampedNormalize` | test/sequential-test.js:18-27 | with clamping, inputs at or beyond the first endpoint give 0, at or beyond the second give 1, and inputs in between keep their parameter; either domain direction |
| `Interpolators.Apply` | test/sequential-test.js:95-106 | each of the model's interpolators maps a NaN parameter to NaN, and the default one returns its parameter; its range laws are `RangeOfFromRange` and `ApplyWithinRange` |
| `Interpolators.Range` | test/sequential-test.js:108-112 | `range()` has two values, and for the number interpolator between two numbers they are those numbers; see also `RangeOfOwnRange` |
| `Interpolators.FromRange` | test/sequential-test.js:114-126 | `range(values)` builds an interpolator whose range is the first two values when they are numbers; see also `RangeOfFromRange` |
| `Interpolators.RangeOfFromRange` | test/sequential-test.js:114-126 | `range()` after `range(values)` reports the first two values exactly when both are numbers or both NaN; the installed interpolator gives their midpoint at 0.5 |
| `Interpolators.RangeOfOwnRange` | test/sequential-test.js:108-119 | for any interpolator whose range values are numbers, installing its own range leaves `range()` unchanged |
| `Interpolators.AffineDeterminedByRange` | test/sequential-test.js:108-119 | each of the model's affine interpolators is determined by its range: rebuilding it from `range()` changes no output |
| `Interpolators.ApplyWithinRange` | test/sequential-test.js:18-27 | for a parameter in [0, 1], the output lies between the two range values |
| `Sequential.Evaluate` | test/sequential-test.js:4-37 | `scale(x)`: missing and NaN-coercing input gives the unknown value; a number gives a number, NaN under a NaN domain endpoint for the model's interpolators (see "## Left out"); its laws are `DefaultIsIdentity`, `UnknownLaw`, `UnclampedLaw`, `ClampLaw`, `DegenerateLaw`, `NaNDomainLaw` |
| `Sequential.ReplaceDomain` | test/sequential-test.js:39-77 | `domain(values)` with at least two values stores the first two and changes nothing else; see also `DomainLaw` and `DomainEndpointsLaw` |
| `Sequential.ReplaceRange` | test/sequential-test.js:114-126 | `range(values)` with two numbers makes `range()` report them and changes nothing but the interpolator; see also `RangeLaw` |
| `Sequential.DefaultIsIdentity` | test/sequential-test.js:4-16 | with the defaults every number, in range or not, evaluates to itself; non-numeric input gives undefined; the domain is [0, 1] |
| `Sequential.UnknownLaw` | test/sequential-test.js:29-37 | missing input, NaN and non-numeric input give the unknown value; numeric input gives a number that does not depend on the unknown value |
| `Sequential.UnclampedLaw` | test/sequential-test.js:95-106 | without clamping, the input whose parameter is t evaluates to the interpolator at t, also for t outside [0, 1] |
| `Sequential.ClampLaw` | test/sequential-test.js:18-27 | with clamping, inputs beyond either end give that end's range value; inputs inside the domain are unaffected by the flag; outputs lie within the range |
| `Sequential.DegenerateLaw` | test/sequential-test.js:54-61 | a degenerate domain maps every number to the interpolator at 0.5, clamped or not |
| `Sequential.NaNDomainLaw` | test/sequential-test.js:63-71 | a NaN domain endpoint makes every number evaluate to the interpolator at NaN, which for the model's interpolators is NaN |
| `Sequential.DomainLaw` | test/sequential-test.js:73-77 | `domain(values)` keeps exactly the first two values (absent ones become NaN) and changes nothing else; setting the current domain changes nothing |
| `Sequential.DomainEndpointsLaw` | test/sequential-test.js:39-46 | after `domain([a, b])` with a != b, a gives the first range value, b the second, and the midpoint the interpolator at 0.5 |
| `Sequential.RangeLaw` | test/sequential-test.js:114-126 | after `range(values)` with numbers, `range()` reports the first two values, the interpolator gives their midpoint at 0.5, and the domain is unchanged |
| `Sequential.RangeOfOwnRangeLaw` | test/sequential-test.js:108-119 | for any interpolator whose range values are numbers, `range(range())` leaves `range()` unchanged |
| `Sequential.AffineRangeRoundTrip` | test/sequential-test.js:108-119 | for the model's affine interpolators, `range(range())` leaves every output of the scale unchanged |
| `Scale.SequentialScale.constructor` | test/sequential-test.js:4-9 | a new scale holds the default configuration |
| `Scale.SequentialScale.OfInterpolator` | test/sequential-test.js:95-99 | `scaleSequential(i)` holds the defaults with interpolator i |
| `Scale.SequentialScale.OfRange` | test/sequential-test.js:128-133 | `scaleSequential(values)` holds the defaults with the interpolator between the first two values |
| `Scale.SequentialScale.Call` | test/sequential-test.js:10-14 | evaluating the scale returns `Evaluate` of its configuration and changes nothing |
| `Scale.SequentialScale.Domain` | test/sequential-test.js:6 | `domain()` returns the two stored endpoints in order |
| `Scale.SequentialScale.Range` | test/sequential-test.js:108-112 | `range()` returns the interpolator's outputs at 0 and at 1 |
| `Scale.SequentialScale.SetDomain` | test/sequential-test.js:39-46 | replaces the domain by the first two values, keeps everything else, returns the scale |
| `Scale.SequentialScale.SetClamp` | test/sequential-test.js:18-20 | sets the clamp flag, keeps everything else, returns the scale |
| `Scale.SequentialScale.SetUnknown` | test/sequential-test.js:29-31 | sets the unknown value, keeps everything else, returns the scale |
| `Scale.SequentialScale.SetInterpolator` | test/sequential-test.js:95-101 | replaces the interpolator, keeps everything else, returns the scale itself |
| `Scale.SequentialScale.SetRange` | test/sequential-test.js:114-119 | installs the interpolator between the first two values, keeps everything else, returns the scale |
| `Scale.SequentialScale.Copy` | test/sequential-test.js:79-83 | the copy is a new object with the same configuration |
| `ScaleTests.Defaults` | test/sequential-test.js:4-16 | the default domain, interpolator, clamp flag and unknown value, and outputs -0.5, 0, 0.5, 1, 1.5 for the same inputs |
| `ScaleTests.ClampEnablesClamping` | test/sequential-test.js:18-27 | with `clamp(true)` the getter is true and -0.5, 0, 0.5, 1, 1.5 give 0, 0, 0.5, 1, 1 |
| `ScaleTests.UnknownSetsMissingOutput` | test/sequential-test.js:29-37 | after `unknown(-1)`, undefined, NaN and "N/A" give -1 and 0.4 gives 0.4 |
| `ScaleTests.DomainCoerced` | test/sequential-test.js:39-46 | domain [-1.2, 2.4] is stored; -1.2, 0.6 and 2.4 give 0, 0.5 and 1 |
| `ScaleTests.DomainDegenerate` | test/sequential-test.js:54-61 | domain [2, 2] is stored as given and every input gives 0.5 |
| `ScaleTests.DomainNaN` | test/sequential-test.js:63-71 | domain [NaN, 2] keeps both values and every input gives NaN |
| `ScaleTests.DomainFirstTwo` | test/sequential-test.js:73-77 | domain [-1, 100, 200] is stored as [-1, 100] |
| `ScaleTests.CopyIsolated` | test/sequential-test.js:79-93 | the copy starts with domain [1, 3] and clamping on; later domain and clamp changes to either scale leave the other's unchanged |
| `ScaleTests.InterpolatorSets` | test/sequential-test.js:95-106 | `interpolator(t => 2t)` returns the scale, the getter reports it, and -0.5, 0, 0.5 give -1, 0, 1 |
| `ScaleTests.RangeComputed` | test/sequential-test.js:108-112 | the range of t => 2t + 1 is [1, 3] |
| `ScaleTests.RangeSets` | test/sequential-test.js:114-119 | after `range([1, 3])` the interpolator gives 2 at 0.5 and `range()` reports [1, 3] |
| `ScaleTests.RangeIgnoresExtra` | test/sequential-test.js:121-126 | after `range([1, 3, 10])` the interpolator gives 2 at 0.5 and `range()` reports [1, 3] |
| `ScaleTests.ConstructorRange` | test/sequential-test.js:128-133 | `scaleSequential([1, 3])` gives 2 at 0.5 and reports range [1, 3] |

## Left out

- The tape harness, the `require` calls and `test.end()`. They are test infrastructure.
- IEEE-754 arithmetic. Numbers are reals with an explicit NaN tag that propagates. Rounding, infinities and signed zero are not modelled.
- JavaScript numeric coercion. String parsing (`"-1.20"` to -1.2) is not modelled, and neither is iterating a `Set` passed to `domain`. `domain(values)` takes the already-coerced numbers. Any input that is not a number is `NonNumeric` and coerces to NaN. Numeric strings and booleans passed to the scale are not modelled.
- `Interpolators.AffineDeterminedByRange`, `Sequential.AffineRangeRoundTrip`: hold only for the model's interpolators, which are all affine in t. The program accepts any function as interpolator, and such a function is not determined by its range: with t => t * t, `range(range())` installs t => t and changes the output at 0.5 from 0.25 to 0.5. For every interpolator the model promises only `RangeOfOwnRange`, that `range(range())` keeps `range()`. Likewise `Interpolators.ApplyWithinRange` and the last clause of `Sequential.ClampLaw` (outputs within the range) assume a monotone interpolator.
- `Interpolators.Apply`, `Sequential.Evaluate`, `Sequential.NaNDomainLaw`: the NaN results they state (NaN parameter gives NaN, NaN domain endpoint gives NaN) hold because the model's interpolators all map NaN to NaN. A program interpolator need not: `t => "x"` or a colour ramp returns no NaN. For every interpolator the model promises only that a NaN domain endpoint makes the output the interpolator at NaN (`NaNDomainLaw`'s first clause).
- Interpolators as closures. An interpolator is one of the three datatype forms above, compared structurally. The identity check of `interpolator()` against the function passed in is structural equality here.
- Non-numeric range values such as colours. These use an external generic interpolation, which is not part of this model.
- `Scale.SequentialScale.SetRange`, `Scale.SequentialScale.OfRange`, `Interpolators.FromRange`, `Sequential.ReplaceRange`: require at least two values. With fewer, the scale would call the external generic interpolation with `undefined`, which is not part of this model.
- Unknown values other than `undefined` and numbers. `Out` has only these two forms.
- The coercion of `clamp`'s argument to a boolean. `SetClamp` takes a boolean.
- Constructor forms other than `scaleSequential()`, `scaleSequential(interpolator)` and `scaleSequential(range)`. No test exercises them.
