/**
 * The operations that change a curve in place through `&mut self`:
 * `parameter_transform`, `parameter_normalization` and `cut`, together with the
 * value-returning `parameter_transformed` that clones, transforms the clone and
 * leaves the receiver alone.
 */
module MutableCurves {
  import opened Curves
  import opened Transform
  import opened Cutting

  /** A curve variable whose value the in-place operations replace. */
  class MutableCurve<P, V> {
    var curve: Curve<P, V>

    constructor (c: Curve<P, V>)
      ensures curve == c
    {
      curve := c;
    }

    /** `parameter_transform`: reparametrizes the held curve by `t |-> t * scalar + move`. */
    method ParameterTransform(scalar: real, move: real)
      requires scalar != 0.0
      modifies this
      ensures curve == Transformed(old(curve), scalar, move)
      ensures TransformLaw(old(curve), curve, scalar, move)
    {
      TransformedSatisfiesLaw(curve, scalar, move);
      curve := Transformed(curve, scalar, move);
    }

    /**
     * `parameter_transformed`: a transformed copy. The receiver is not in any
     * modifies clause, so it is left as it was.
     */
    method ParameterTransformed(scalar: real, move: real) returns (r: Curve<P, V>)
      requires scalar != 0.0
      ensures TransformLaw(curve, r, scalar, move)
    {
      var copy := new MutableCurve(curve);
      copy.ParameterTransform(scalar, move);
      r := copy.curve;
    }

    /** `parameter_normalization`: transforms the held curve onto the range `(0, 1)`. */
    method ParameterNormalization()
      requires curve.range.0 != curve.range.1
      modifies this
      ensures curve.range.0 == 0.0 && curve.range.1 == 1.0
      ensures var (a, b) := NormalizationScalars(old(curve.range)); TransformLaw(old(curve), curve, a, b)
    {
      var (a, b) := NormalizationScalars(curve.range);
      ParameterTransform(a, b);
    }

    /** `cut`: keeps the part before `t` in place and returns the part after it. */
    method Cut(t: real) returns (latter: Curve<P, V>)
      modifies this
      ensures CutLaw(old(curve), t, curve, latter)
    {
      CutAtSatisfiesLaw(curve, t);
      var parts := CutAt(curve, t);
      curve, latter := parts.0, parts.1;
    }
  }
}
