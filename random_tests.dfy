/**
 * The scale factor drawn by the randomized reparametrization test, as the test
 * computes it and as it is evidently meant: a random sign times a magnitude in
 * `[0.5, 1.5)`.
 */
module RandomTests {
  import opened Curves
  import opened Transform
  import opened ReferenceCurves

  /** The drawn scale as written, `sign as f64 * r + 0.5`, with `r` drawn from `[0, 1)`. */
  function DrawnScalar(sign: int, r: real): (a: real)
    ensures 0.0 <= r < 1.0 && sign == 1 ==> 0.5 <= a < 1.5
    ensures 0.0 <= r < 1.0 && sign == -1 ==> -0.5 < a <= 0.5
  {
    sign as real * r + 0.5
  }

  /**
   * As written, the sign -1 together with the draw `r = 0.5` gives the scale 0, and
   * with the scale 0 no curve can satisfy the reparametrization laws for the step
   * curve `(0, 1)`: it would have to be both 0 and 1 at the same parameter.
   */
  lemma DrawnScalarCanBeZero()
    ensures 0.0 <= 0.5 < 1.0 && DrawnScalar(-1, 0.5) == 0.0
    ensures forall r: Curve<usize, usize>, move: real ::
              !TransformLaw(StepCurve(0, 1), r, DrawnScalar(-1, 0.5), move)
  {
    var c := StepCurve(0, 1);
    forall r: Curve<usize, usize>, move: real
      ensures !TransformLaw(c, r, DrawnScalar(-1, 0.5), move)
    {
      var u := Affine(0.0, 0.0, move);
      assert Affine(0.75, 0.0, move) == u;
      assert c.subs(0.0) != c.subs(0.75);
      assert TransformLaw(c, r, 0.0, move) ==> MatchesAt(c, r, 0.0, u) && MatchesAt(c, r, 0.75, u);
    }
  }

  /** The evidently intended scale `sign * (r + 0.5)`: never 0, with magnitude in `[0.5, 1.5)`. */
  function IntendedScalar(sign: int, r: real): (a: real)
    requires sign == 1 || sign == -1
    requires 0.0 <= r < 1.0
    ensures a != 0.0
    ensures sign == 1 ==> 0.5 <= a < 1.5
    ensures sign == -1 ==> -1.5 < a <= -0.5
  {
    sign as real * (r + 0.5)
  }

  /** With the intended scale, every trial of the reparametrization test passes. */
  lemma IntendedTrialPasses<P, V>(c: Curve<P, V>, sign: int, r: real, move: real)
    requires sign == 1 || sign == -1
    requires 0.0 <= r < 1.0
    ensures TransformLaw(c, Transformed(c, IntendedScalar(sign, r), move), IntendedScalar(sign, r), move)
  {
    TransformedSatisfiesLaw(c, IntendedScalar(sign, r), move);
  }
}
