# Curve algebra of truck-geotrait, in Dafny

This project models the generic curve algebra of `truck-geotrait`
(`src/traits/curve.rs`):

- the parametric-curve contract: `subs`, `der`, `der2`, `parameter_range`, and `front`/`back` derived from them;
- affine reparametrization (`ParameterTransform`);
- concatenation with continuity checks (`Concat`, `ConcatError` and its `point_map`);
- the fold accumulator `CurveCollector`;
- splitting (`Cut`);
- the two reference curves `()` and `(usize, usize)`;
- the laws that the randomized `exec_*_random_test` functions assert.

A curve is a value: `Curves.Curve<P, V>` holds its three evaluation maps over a
real parameter and its range `(t0, t1)`. `Front` and `Back` evaluate `subs` at the
two ends of the range, as the default trait methods do. Parameters are `real`.

The traits leave `parameter_transform`, `try_concat` and `cut` to each concrete
curve type. Each gets two things here:

- a law predicate that says what the random tests assert (`TransformLaw`, `ConcatLaw`, `CutLaw`);
- one canonical definition (`Transformed`, `Joined`/`TryConcat`, `CutAt`).

The lemmas prove that each definition satisfies its law. For reparametrization
and concatenation they also prove the converse: any curve that satisfies the law
agrees with the definition wherever the tests look.

Every random test computes its parameter as `(1 - p) * lo + p * hi` with `p`
drawn from `[0, 1)`. `Curves.Drawable(t, lo, hi)` holds for exactly those
parameters: `lo` itself and every parameter strictly between `lo` and `hi`
(`Curves.DrawableIsSampled`). The laws quantify over `Drawable`, so each law holds
for every parameter a trial could draw. The far end `hi` is never drawn in exact arithmetic (`f64` rounding, which can land on `hi`, is left out). There the
tests check only the position, through `front` or `back`, so the laws constrain
only the position at that end.

Operations that work through `&mut self` live in classes:

- `MutableCurves.MutableCurve` holds a curve that `ParameterTransform`, `ParameterNormalization` and `Cut` replace in place;
- `Collector.CurveCollector` holds a `CollectorState` (`Singleton | Collected(curve)`) that `TryConcat` and `Concat` update.

Modules: `Wrappers` (Option, Result), `Curves`, `Transform`, `Concatenation`,
`Cutting`, `MutableCurves`, `Collector`, `ReferenceCurves`, `RandomTests`.

Where the tests assert less, or something other, than the trait's doc comments suggest, the model follows the assertions:

- The concatenation test draws its first sample from `t0` towards `t1` and its second from `t1` towards `t2`. So the concatenated curve follows the first curve below `t1` and the second curve from `t1` on. When the first curve is a single parameter (`t0 == t1`), the first sample is always `t1` and the second can be `t1` (draw `p = 0`), so a trial can ask for both curves' values and derivatives there. The laws can then hold only if the two curves evaluate alike at `t1` (`Concatenation.Joinable`, `Concatenation.DegenerateConcatFails`).
- The doc example of `parameter_transformed` (curve.rs:55-56) expects the transformed curve at 0.5 to equal the original at 2.5 for `(1.0, 2.0)`. The test asserts the opposite convention, `transformed.subs(t * a + b) == curve.subs(t)` (curve.rs:212). The model follows the test (see Findings).
- The contract puts no order on `parameter_range`, and a negative scale reverses the range (curve.rs:209). `Joined`, and with it the concatenation and cut lemmas, is oriented for increasing ranges. For two reversed adjacent curves `Concatenation.JoinedDecreasing` meets the laws instead, and `Concatenation.ReversedPairNotJoined` shows that `Joined` need not.
- The reparametrization test draws its scale as `sign * r + 0.5` (curve.rs:204). The loop just before it (curve.rs:200-203) redraws until the sign is nonzero. That only makes sense if the sign was meant to multiply the whole magnitude (see Findings).

## Model

| member | source | states |
|---|---|---|
| `Curves.Front` | truck-geotrait/src/traits/curve.rs:18-22 | the default `front`: the position at the start of the range |
| `Curves.Back` | truck-geotrait/src/traits/curve.rs:23-27 | the default `back`: the position at the end of the range |
| `Curves.DrawableIsSampled` | truck-geotrait/src/traits/curve.rs:210-211 | a parameter is `Drawable` from `lo` towards `hi` exactly when it is `(1 - p) * lo + p * hi` for some `p` in `[0, 1)`, the form of every sample the tests draw |
| `Transform.Transformed` | truck-geotrait/src/traits/curve.rs:47-49 | the canonical reparametrization: evaluates at `u` as the original at `(u - b) / a`, on the range `(t0*a+b, t1*a+b)`; its laws are the lemmas below |
| `Transform.TransformedAt` | truck-geotrait/src/traits/curve.rs:212-214 | at `t * a + b` the reparametrized curve gives the original's position, first and second derivative at `t` |
| `Transform.TransformedSatisfiesLaw` | truck-geotrait/src/traits/curve.rs:206-216 | the reparametrized curve has range `(t0*a+b, t1*a+b)`, matches the original at `t*a+b` for every parameter `t` the test can draw, and keeps `front` and `back` |
| `Transform.TransformLawDeterminesCurve` | truck-geotrait/src/traits/curve.rs:206-216 | any curve that satisfies the reparametrization laws has the range of `Transformed`, agrees with it at every parameter the test can draw from that range, and has the same `front` and `back`, for either sign of the scale |
| `Transform.TransformInverse` | truck-geotrait/src/traits/curve.rs:47-49 | transforming by `(1/a, -b/a)` after `(a, b)` gives back a curve with the original range and the original values everywhere |
| `Transform.NormalizationScalars` | truck-geotrait/src/traits/curve.rs:64-68 | for `t0 != t1` the scale `1/(t1-t0)` is nonzero and the move `-t0*a` maps `t0` to 0 and `t1` to 1 |
| `Transform.NormalizationOfUnitRange` | truck-geotrait/src/traits/curve.rs:63-69 | on a curve already on `(0, 1)` normalization uses `(1, 0)` and leaves the curve's range and values unchanged |
| `Transform.AsWrittenNeverReturns` | truck-geotrait/src/traits/curve.rs:58-62 | the default `parameter_transformed`, as written, returns at no recursion depth |
| `Transform.ParameterTransformedAsWritten` | truck-geotrait/src/traits/curve.rs:58-62 | the default `parameter_transformed` as written, with a recursion-depth bound: whenever it returns, it returns the receiver's curve unchanged |
| `MutableCurves.MutableCurve.constructor` | truck-geotrait/src/traits/curve.rs:59 | a new variable holds a copy of the given curve |
| `MutableCurves.MutableCurve.ParameterTransform` | truck-geotrait/src/traits/curve.rs:49 | replaces the held curve by its reparametrization, which satisfies the reparametrization laws against the old curve |
| `MutableCurves.MutableCurve.ParameterTransformed` | truck-geotrait/src/traits/curve.rs:51-62 | returns a curve satisfying the reparametrization laws against the receiver; the receiver is outside the frame and stays unchanged |
| `MutableCurves.MutableCurve.ParameterNormalization` | truck-geotrait/src/traits/curve.rs:64-69 | for `t0 != t1` the held curve gets range `(0, 1)` and satisfies the laws for the scale `1/(t1-t0)` and move `-t0/(t1-t0)` |
| `MutableCurves.MutableCurve.Cut` | truck-geotrait/src/traits/curve.rs:181-184 | the held curve becomes the part before `t` and the returned curve is the part after it, together satisfying the cut laws against the old curve |
| `Concatenation.PointMap` | truck-geotrait/src/traits/curve.rs:104-109 | the variant is kept; `DisconnectedParameters` keeps its two parameters and `DisconnectedPoints` carries the images of its two points under `f` |
| `Concatenation.PointMapIdentity` | truck-geotrait/src/traits/curve.rs:104-109 | mapping the points through the identity gives back the same error |
| `Concatenation.PointMapComposition` | truck-geotrait/src/traits/curve.rs:104-109 | mapping through `f` and then `g` equals mapping through `g . f` |
| `Concatenation.Joined` | truck-geotrait/src/traits/curve.rs:78-81 | the canonical concatenation: the first curve below its end parameter, the second from there on, over `(t0, t2)`; its laws are the lemmas below |
| `Concatenation.TryConcat` | truck-geotrait/src/traits/curve.rs:78-81 | succeeds exactly when the end parameter of the first equals the start parameter of the second and its back equals the other's front; otherwise returns `DisconnectedParameters(end, start)` or `DisconnectedPoints(back, front)` with the offending values |
| `Concatenation.JoinedDecreasing` | truck-geotrait/src/traits/curve.rs:78-81 | the join for two reversed curves: the first curve above the shared parameter, the second at and below it, over `(t0, t2)`; its law is the lemma below |
| `Concatenation.JoinedDecreasingSatisfiesLaw` | truck-geotrait/src/traits/curve.rs:237-254 | for a reversed first curve and a second curve on `(t1, t2)` with `t2 <= t1`, the decreasing join satisfies every concatenation law |
| `Concatenation.ReversedPairNotJoined` | truck-geotrait/src/traits/curve.rs:237-254 | on a reversed first curve that differs from the second at some parameter strictly inside its range, `Joined` fails the concatenation laws |
| `Concatenation.TryConcatSatisfiesLaw` | truck-geotrait/src/traits/curve.rs:237-254 | a successful concatenation of a joinable pair has range `(t0, t2)`, follows the first curve at every parameter the test draws towards `t1` and the second at every parameter it draws from `t1`, keeps the first front and the second back, and is well formed |
| `Concatenation.DegenerateConcatFails` | truck-geotrait/src/traits/curve.rs:237-254 | when the first curve is the single parameter `t1` and the two curves evaluate differently there, no curve satisfies the concatenation laws |
| `Concatenation.ConcatLawDeterminesCurve` | truck-geotrait/src/traits/curve.rs:237-254 | any curve satisfying the concatenation laws has the joined curve's range, agrees with it on `[t0, t2)`, and has its `front` and `back` |
| `Concatenation.Concat` | truck-geotrait/src/traits/curve.rs:82-87 | callable only when `try_concat` succeeds; the result has range `(t0, t2)` and, for a joinable pair, satisfies the concatenation laws |
| `Cutting.CutAt` | truck-geotrait/src/traits/curve.rs:180-184 | the canonical cut: both parts evaluate as the original, on `(t0, t)` and on `(t, t1)`; its laws are the lemmas below |
| `Cutting.CutAtSatisfiesLaw` | truck-geotrait/src/traits/curve.rs:271-293 | the two parts of a cut at `t` have ranges `(t0, t)` and `(t, t1)`, agree with the original at every parameter the test draws in them, and meet at the original's point at `t` |
| `Cutting.CutThenConcat` | truck-geotrait/src/traits/curve.rs:181-184 | for `t` in the range, any two parts satisfying the cut laws concatenate again into a curve that has the original range, agrees with the original at every parameter the tests can draw from it, and has the original's `front` and `back` |
| `Collector.IsSingleton` | truck-geotrait/src/traits/curve.rs:150-156 | `is_singleton`: true exactly for the `Singleton` state |
| `Collector.ToOption` | truck-geotrait/src/traits/curve.rs:170-178 | the conversion is `None` exactly when `is_singleton` holds, and otherwise `Some` of the held curve |
| `Collector.Unwrap` | truck-geotrait/src/traits/curve.rs:158-167 | callable only on a non-`Singleton` collector; returns the held curve, the one the `Option` conversion would hold |
| `Collector.Step` | truck-geotrait/src/traits/curve.rs:124-138 | one `try_concat` step: a `Singleton` collector always succeeds and holds the segment; a successful step always leaves a curve held; on a held curve `c` the step succeeds exactly when `try_concat` does, then holding `c.try_concat(segment)`, and an error is the one `try_concat` returns |
| `Collector.CollectIsConcatAll` | truck-geotrait/src/traits/curve.rs:124-138 | feeding a non-empty list of segments to a `Singleton` collector gives the left-to-right concatenation of the segments, or the first error it meets |
| `Collector.AdjacentConcatAll` | truck-geotrait/src/traits/curve.rs:124-138 | adjacent well-formed segments always concatenate, into a well-formed curve from the first start to the last end, with the first front and the last back |
| `Collector.CurveCollector.constructor` | truck-geotrait/src/traits/curve.rs:114-119 | a new collector is `Singleton` |
| `Collector.CurveCollector.TryConcat` | truck-geotrait/src/traits/curve.rs:124-138 | from `Singleton`: always succeeds and holds the segment. With a held curve: on success holds the concatenation and returns the collector itself; on error returns that error and keeps the held curve |
| `Collector.CurveCollector.Concat` | truck-geotrait/src/traits/curve.rs:141-148 | callable only when the step succeeds, and takes the state that `try_concat` would |
| `ReferenceCurves.UnitCurve` | truck-geotrait/src/traits/curve.rs:30-38 | the unit curve `()` is well formed on the range `(0, 1)` |
| `ReferenceCurves.StepCurve` | truck-geotrait/src/traits/curve.rs:296-308 | the step curve `(a, b)` has range `(0, 1)`, front `a`, back `b`, and both derivatives constant `b - a` |
| `ReferenceCurves.DocExampleAsWritten` | truck-geotrait/src/traits/curve.rs:55-56 | for the step curve `(0, 1)` and `(1.0, 2.0)`, the transformed curve at 0.5 differs from the original at 2.5, as the doc example claims equal; at 2.5 it equals the original at 0.5 |
| `ReferenceCurves.UnitPointsAlwaysMeet` | truck-geotrait/src/traits/curve.rs:31-38 | two curves with the unit point type concatenate exactly when their parameters meet |
| `ReferenceCurves.UnitCurveThenShifted` | truck-geotrait/src/traits/curve.rs:31-38 | the unit curve followed by its copy shifted by one concatenates onto `(0, 2)` |
| `ReferenceCurves.StepCurvesDisconnected` | truck-geotrait/src/traits/curve.rs:296-308 | two step curves as they are always fail with `DisconnectedParameters(1, 0)` |
| `ReferenceCurves.ShiftedStepCurves` | truck-geotrait/src/traits/curve.rs:296-308 | after shifting the second step curve by one, concatenation succeeds iff `b == c`, and otherwise fails with `DisconnectedPoints(b, c)` |
| `RandomTests.DrawnScalar` | truck-geotrait/src/traits/curve.rs:204 | the scale as written: for a draw in `[0, 1)` it lies in `[0.5, 1.5)` with sign 1 but in `(-0.5, 0.5]` with sign -1 |
| `RandomTests.DrawnScalarCanBeZero` | truck-geotrait/src/traits/curve.rs:200-204 | as written, sign -1 and draw 0.5 give scale 0, and then no curve satisfies the reparametrization laws for the step curve `(0, 1)` |
| `RandomTests.IntendedScalar` | truck-geotrait/src/traits/curve.rs:200-204 | the intended scale `sign * (r + 0.5)` is never 0, lies in `[0.5, 1.5)` for sign 1 and in `(-1.5, -0.5]` for sign -1 |
| `RandomTests.IntendedTrialPasses` | truck-geotrait/src/traits/curve.rs:195-217 | with the intended scale, every trial of the reparametrization test holds |

## Left out

- `ParameterDivision1D` (truck-geotrait/src/traits/curve.rs:41-44) is an interface with no algorithm behind it, so it is not modelled.
- truck-rendimpl/src/instdesc.rs is not part of this model. It is GPU buffer, texture and pipeline plumbing.
- `f64` rounding is not modelled: parameters are `real`, so the laws hold exactly.
- The random draws and the trial loops of the tests are not modelled. Each law quantifies over every parameter that a trial could draw (`Curves.Drawable`).
- Error messages and panic texts are left out. A panic (`concat`, `unwrap`, the collector's `concat`) becomes a precondition.
- `parameter_transform` and `parameter_normalization` return `&mut Self` for chaining; in the model they return nothing. The collector's `try_concat` does return the collector; its `concat` (truck-geotrait/src/traits/curve.rs:141-148) also returns `&mut Self`, which `Collector.CurveCollector.Concat` drops.
- The trait genericity is not modelled: the `Output` type of `Concat`, a right-hand curve type other than the left's, and the `Into<C>` conversion. Every curve is a `Curves.Curve<P, V>`, and the conversion is the identity.
- Concrete curve types (B-splines and others) are not part of this model. They stand behind the canonical definitions: the determination lemmas show that every implementation satisfying the laws agrees with those definitions wherever the tests look.
- MutableCurves.MutableCurve.ParameterTransform: requires a nonzero scale, which the source does not check. With scale 0 no curve whose front and back differ satisfies the reparametrization laws, and `Transformed` divides by the scale.
- MutableCurves.MutableCurve.ParameterTransformed: requires a nonzero scale, for the same reason.
- Transform.Transformed: requires a nonzero scale, since it evaluates the original at `(u - move) / scale`.
- MutableCurves.MutableCurve.ParameterNormalization: requires `t0 != t1`. The source then divides by zero and produces non-finite scalars.
- ReferenceCurves.StepCurve: requires `a <= b`. For `a > b` the source's `usize` subtraction in `der`/`der2` panics in debug builds and wraps in release builds; neither is modelled.
- Concatenation.TryConcatSatisfiesLaw: promises the laws only for a joinable pair. Both ranges must be increasing (`t0 <= t1`), because `Joined` is oriented that way. The contract also allows reversed ranges. For two reversed adjacent curves the laws can be met (`Concatenation.JoinedDecreasingSatisfiesLaw`), but `Joined` does not meet them (`Concatenation.ReversedPairNotJoined`). When the first curve is a single parameter `t1`, the two curves must also evaluate alike there. Otherwise no curve at all satisfies the laws (`Concatenation.DegenerateConcatFails`), because `try_concat` compares only positions.
- Concatenation.Concat: promises the laws only for a joinable pair, for the same reasons. Its result is `Joined`, which fails the laws for two reversed adjacent curves.
- Cutting.CutThenConcat: only covers a cut inside an increasing range. The cut test also cuts reversed curves (curve.rs:272-274), and there the requires `t0 <= t <= t1` has no solution. The concatenation it uses is `Joined`, which is oriented for increasing ranges. At the end of the range it promises the position (`back`) but not the derivatives, because the cut laws do not constrain them there.

## Findings

| source | as written | input that shows it | evidently intended | confidence | as-written member | corrected member |
|---|---|---|---|---|---|---|
| truck-geotrait/src/traits/curve.rs:58-62 | the default `parameter_transformed` calls `parameter_transformed` again on the clone with the same arguments, discards that result and would return the untransformed clone | any curve and any `(scalar, move)`: the call recurses without end | clone, apply `parameter_transform` to the clone, return the transformed clone and leave the receiver alone | high; not executed | `Transform.AsWrittenNeverReturns` | `MutableCurves.MutableCurve.ParameterTransformed` |
| truck-geotrait/src/traits/curve.rs:204 | the scale is `sign as f64 * r + 0.5`, which lies in `(-0.5, 0.5]` for sign -1 | sign -1 with the draw `r = 0.5` gives scale 0; the asserted laws then fail for any curve whose front and back differ, such as the step curve `(0, 1)` | `sign * (r + 0.5)`: a random sign with magnitude in `[0.5, 1.5)` | medium; not executed | `RandomTests.DrawnScalarCanBeZero` | `RandomTests.IntendedScalar` |
| truck-geotrait/src/traits/curve.rs:55-56 | the doc example says `curve1.subs(0.5) == curve0.subs(2.5)` for `curve1 = curve0.parameter_transformed(1.0, 2.0)` | the step curve `(0, 1)`: the transformed curve at 0.5 gives 0 and the original at 2.5 gives 1 | `curve1.subs(2.5) == curve0.subs(0.5)`, the convention the test asserts (curve.rs:212) | medium; not executed | `ReferenceCurves.DocExampleAsWritten` | `Transform.TransformedAt` |
