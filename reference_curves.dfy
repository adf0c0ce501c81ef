/**
 * The two trivial curves the library implements the contract for: the unit
 * curve `()` and the step curve `(usize, usize)`, both on the range `(0, 1)`.
 */
module ReferenceCurves {
  import opened Wrappers
  import opened Curves
  import opened Transform
  import opened Concatenation

  /** Rust's `usize` on a 64-bit target. */
  newtype usize = x: int | 0 <= x < 0x1_0000_0000_0000_0000

  /** The unit curve `()`: every evaluation is `()`, on the range `(0, 1)`. */
  function UnitCurve(): (c: Curve<(), ()>)
    ensures WellFormed(c) && c.range.0 == 0.0 && c.range.1 == 1.0
  {
    Curve(_ => (), _ => (), _ => (), (0.0, 1.0))
  }

  /**
   * The step curve `(a, b)`: the point `a` below the parameter 0.5 and `b` from
   * there on; both derivatives are the constant `b - a`, a `usize` subtraction
   * that needs `a <= b`.
   */
  function StepCurve(a: usize, b: usize): (c: Curve<usize, usize>)
    requires a <= b
    ensures WellFormed(c) && c.range.0 == 0.0 && c.range.1 == 1.0
    ensures Front(c) == a && Back(c) == b
    ensures forall t :: c.der(t) == b - a && c.der2(t) == b - a
  {
    Curve(t => if t < 0.5 then a else b, _ => b - a, _ => b - a, (0.0, 1.0))
  }

  /**
   * The doc example of `parameter_transformed` read as written: with `(1.0, 2.0)`
   * it compares the transformed curve at 0.5 with the original at 2.5, which differ
   * for the step curve `(0, 1)`; the test's convention compares them the other way round.
   */
  lemma DocExampleAsWritten()
    ensures Transformed(StepCurve(0, 1), 1.0, 2.0).subs(0.5) != StepCurve(0, 1).subs(2.5)
    ensures Transformed(StepCurve(0, 1), 1.0, 2.0).subs(2.5) == StepCurve(0, 1).subs(0.5)
  {
    assert Preimage(0.5, 1.0, 2.0) == -1.5;
    assert Preimage(2.5, 1.0, 2.0) == 0.5;
  }

  /** Curves with the unit point type always meet in their points: only the parameters decide. */
  lemma UnitPointsAlwaysMeet(c0: Curve<(), ()>, c1: Curve<(), ()>)
    ensures TryConcat(c0, c1).Ok? <==> c0.range.1 == c1.range.0
  {
    assert Back(c0) == () == Front(c1);
  }

  /** The unit curve followed by its copy shifted by one concatenates onto the range `(0, 2)`. */
  lemma UnitCurveThenShifted()
    ensures TryConcat(UnitCurve(), Transformed(UnitCurve(), 1.0, 1.0)).Ok?
    ensures TryConcat(UnitCurve(), Transformed(UnitCurve(), 1.0, 1.0)).value.range == (0.0, 2.0)
  {
    var shifted := Transformed(UnitCurve(), 1.0, 1.0);
    assert shifted.range.0 == 1.0 && shifted.range.1 == 2.0;
  }

  /** Two step curves never concatenate as they are: both start at parameter 0, not 1. */
  lemma StepCurvesDisconnected(a: usize, b: usize, c: usize, d: usize)
    requires a <= b && c <= d
    ensures TryConcat(StepCurve(a, b), StepCurve(c, d)) == Err(DisconnectedParameters(1.0, 0.0))
  {
  }

  /**
   * Shifting the second step curve by one makes the parameters meet; the
   * concatenation then succeeds exactly when the first ends where the second begins.
   */
  lemma ShiftedStepCurves(a: usize, b: usize, c: usize, d: usize)
    requires a <= b && c <= d
    ensures b == c ==> TryConcat(StepCurve(a, b), Transformed(StepCurve(c, d), 1.0, 1.0)).Ok?
    ensures b != c ==>
              TryConcat(StepCurve(a, b), Transformed(StepCurve(c, d), 1.0, 1.0)) == Err(DisconnectedPoints(b, c))
  {
    var shifted := Transformed(StepCurve(c, d), 1.0, 1.0);
    assert shifted.range.0 == 1.0;
    TransformedSatisfiesLaw(StepCurve(c, d), 1.0, 1.0);
  }
}
