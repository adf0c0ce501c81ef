/**
 * Concatenation of two curves (`Concat`): the error type with its point
 * remapping, the checked `TryConcat`, the panicking `Concat`, and the laws the
 * randomized concatenation test asserts of a concatenated curve.
 */
module Concatenation {
  import opened Wrappers
  import opened Curves

  /** Why two curves could not be concatenated, carrying the offending values. */
  datatype ConcatError<P> =
    | DisconnectedParameters(endParameter: real, startParameter: real)
    | DisconnectedPoints(endPoint: P, startPoint: P)

  /** `point_map`: maps the carried points through `f` and keeps the variant. */
  function PointMap<P, Q>(e: ConcatError<P>, f: P -> Q): (r: ConcatError<Q>)
    ensures r.DisconnectedParameters? <==> e.DisconnectedParameters?
    ensures r.DisconnectedParameters? ==>
              r.endParameter == e.endParameter && r.startParameter == e.startParameter
    ensures r.DisconnectedPoints? ==>
              r.endPoint == f(e.endPoint) && r.startPoint == f(e.startPoint)
  {
    match e
    case DisconnectedParameters(a, b) => DisconnectedParameters(a, b)
    case DisconnectedPoints(p, q) => DisconnectedPoints(f(p), f(q))
  }

  /** Mapping the points through the identity gives back the same error. */
  lemma PointMapIdentity<P>(e: ConcatError<P>)
    ensures PointMap(e, p => p) == e
  {
  }

  /** Mapping through `f` and then `g` is mapping through their composition. */
  lemma PointMapComposition<P, Q, R>(e: ConcatError<P>, f: P -> Q, g: Q -> R)
    ensures PointMap(PointMap(e, f), g) == PointMap(e, p => g(f(p)))
  {
  }

  /**
   * The curve that follows `c0` below the end parameter of `c0` and `c1` from
   * there on, over the range from the start of `c0` to the end of `c1`.
   */
  function Joined<P, V>(c0: Curve<P, V>, c1: Curve<P, V>): Curve<P, V> {
    var t1 := c0.range.1;
    Curve(
      t => if t < t1 then c0.subs(t) else c1.subs(t),
      t => if t < t1 then c0.der(t) else c1.der(t),
      t => if t < t1 then c0.der2(t) else c1.der2(t),
      (c0.range.0, c1.range.1))
  }

  /**
   * `try_concat`: fails with `DisconnectedParameters` when the end parameter of `c0`
   * is not the start parameter of `c1`, then with `DisconnectedPoints` when the back
   * point of `c0` is not the front point of `c1`; otherwise joins the two curves.
   */
  function TryConcat<P(==), V>(c0: Curve<P, V>, c1: Curve<P, V>): (r: Result<Curve<P, V>, ConcatError<P>>)
    ensures r.Ok? <==> c0.range.1 == c1.range.0 && Back(c0) == Front(c1)
    ensures c0.range.1 != c1.range.0 ==>
              r == Err(DisconnectedParameters(c0.range.1, c1.range.0))
    ensures c0.range.1 == c1.range.0 && Back(c0) != Front(c1) ==>
              r == Err(DisconnectedPoints(Back(c0), Front(c1)))
  {
    if c0.range.1 != c1.range.0 then
      Err(DisconnectedParameters(c0.range.1, c1.range.0))
    else if Back(c0) != Front(c1) then
      Err(DisconnectedPoints(Back(c0), Front(c1)))
    else
      Ok(Joined(c0, c1))
  }

  /**
   * What the concatenation test asserts of `r = c0.concat(c1)`: the range runs from
   * the start `t0` of `c0` to the end `t2` of `c1`; `r` evaluates as `c0` at every
   * parameter the test may draw from `t0` towards the end `t1` of `c0`, and as `c1`
   * at every parameter it may draw from `t1` towards `t2`; the front is that of `c0`
   * and the back that of `c1`.
   */
  ghost predicate ConcatLaw<P, V>(c0: Curve<P, V>, c1: Curve<P, V>, r: Curve<P, V>) {
    && r.range.0 == c0.range.0
    && r.range.1 == c1.range.1
    && (forall t :: Drawable(t, c0.range.0, c0.range.1) ==> AgreeAt(r, c0, t))
    && (forall t :: Drawable(t, c0.range.1, c1.range.1) ==> AgreeAt(r, c1, t))
    && Front(r) == Front(c0)
    && Back(r) == Back(c1)
  }

  /**
   * The pairs for which `Joined` meets the concatenation laws: both ranges
   * increasing, and, when `c0` is a single parameter, `c0` and `c1` evaluate alike
   * there, since the test then asks `r` to match both curves at that parameter.
   * `Joined` is oriented for increasing ranges; reversed pairs are handled by
   * `JoinedDecreasing` below.
   */
  ghost predicate Joinable<P, V>(c0: Curve<P, V>, c1: Curve<P, V>) {
    && WellFormed(c0) && WellFormed(c1)
    && (c0.range.0 < c0.range.1 || AgreeAt(c0, c1, c0.range.1))
  }

  /** When `c0` is a single parameter and the curves differ there, no curve satisfies the laws. */
  lemma DegenerateConcatFails<P, V>(c0: Curve<P, V>, c1: Curve<P, V>)
    requires c0.range.0 == c0.range.1 && !AgreeAt(c0, c1, c0.range.1)
    ensures forall r: Curve<P, V> :: !ConcatLaw(c0, c1, r)
  {
    var t1 := c0.range.1;
    forall r: Curve<P, V> ensures !ConcatLaw(c0, c1, r) {
      assert ConcatLaw(c0, c1, r) ==> AgreeAt(r, c0, t1) && AgreeAt(r, c1, t1);
    }
  }

  /**
   * The join of two adjacent reversed curves: `c0` above the shared parameter
   * `t1`, `c1` at and below it, over the range from the start of `c0` to the end of `c1`.
   */
  function JoinedDecreasing<P, V>(c0: Curve<P, V>, c1: Curve<P, V>): Curve<P, V> {
    var t1 := c0.range.1;
    Curve(
      t => if t > t1 then c0.subs(t) else c1.subs(t),
      t => if t > t1 then c0.der(t) else c1.der(t),
      t => if t > t1 then c0.der2(t) else c1.der2(t),
      (c0.range.0, c1.range.1))
  }

  /** Two reversed curves that meet at `t1` can be concatenated: `JoinedDecreasing` meets the laws. */
  lemma JoinedDecreasingSatisfiesLaw<P, V>(c0: Curve<P, V>, c1: Curve<P, V>)
    requires c0.range.1 < c0.range.0 && c1.range.1 <= c1.range.0 == c0.range.1
    ensures ConcatLaw(c0, c1, JoinedDecreasing(c0, c1))
  {
  }

  /**
   * `Joined` switches below `t1`, so on a reversed first curve it takes `c1` at the
   * parameters drawn from `c0`: wherever the two curves differ there, it fails the laws.
   */
  lemma ReversedPairNotJoined<P, V>(c0: Curve<P, V>, c1: Curve<P, V>, m: real)
    requires c0.range.1 < m < c0.range.0 && c1.subs(m) != c0.subs(m)
    ensures !ConcatLaw(c0, c1, Joined(c0, c1))
  {
    assert Drawable(m, c0.range.0, c0.range.1);
    assert Joined(c0, c1).subs(m) == c1.subs(m);
  }

  /** A successful `TryConcat` of a joinable pair satisfies the concatenation laws. */
  lemma TryConcatSatisfiesLaw<P, V>(c0: Curve<P, V>, c1: Curve<P, V>)
    requires TryConcat(c0, c1).Ok?
    ensures Joinable(c0, c1) ==> ConcatLaw(c0, c1, TryConcat(c0, c1).value)
    ensures Joinable(c0, c1) ==> WellFormed(TryConcat(c0, c1).value)
  {
    var r := TryConcat(c0, c1).value;
    if Joinable(c0, c1) {
      forall t | Drawable(t, c0.range.0, c0.range.1)
        ensures AgreeAt(r, c0, t)
      {
        if t == c0.range.1 {
          assert AgreeAt(c0, c1, t);
        }
      }
    }
  }

  /**
   * The laws pin the concatenation down as far as the test observes it: every
   * curve satisfying them has the range of `Joined`, agrees with it from the start
   * of `c0` up to the end of `c1`, and has the same end points.
   */
  lemma ConcatLawDeterminesCurve<P, V>(c0: Curve<P, V>, c1: Curve<P, V>, r: Curve<P, V>)
    requires WellFormed(c0) && WellFormed(c1) && c0.range.1 == c1.range.0
    requires ConcatLaw(c0, c1, r)
    ensures r.range == Joined(c0, c1).range
    ensures forall t :: c0.range.0 <= t < c1.range.1 ==> AgreeAt(r, Joined(c0, c1), t)
    ensures Front(r) == Front(Joined(c0, c1)) && Back(r) == Back(Joined(c0, c1))
  {
    var d := Joined(c0, c1);
    forall t | c0.range.0 <= t < c1.range.1
      ensures AgreeAt(r, d, t)
    {
      if t < c0.range.1 {
        assert AgreeAt(r, c0, t);
      } else {
        assert AgreeAt(r, c1, t);
      }
    }
    if c0.range.0 == c0.range.1 {
      assert AgreeAt(r, c1, c0.range.1);
    }
  }

  /** `concat`: `TryConcat` for callers that know it succeeds (the source panics otherwise). */
  function Concat<P(==), V>(c0: Curve<P, V>, c1: Curve<P, V>): (r: Curve<P, V>)
    requires TryConcat(c0, c1).Ok?
    ensures r.range == (c0.range.0, c1.range.1)
    ensures Joinable(c0, c1) ==> ConcatLaw(c0, c1, r)
  {
    TryConcatSatisfiesLaw(c0, c1);
    TryConcat(c0, c1).value
  }
}
