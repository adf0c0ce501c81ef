/**
 * Affine reparametrization (`ParameterTransform`): the curve whose parameter
 * `t * scalar + move` stands for the original parameter `t`, the laws the
 * randomized reparametrization test asserts of it, and the normalization of the
 * range to `(0, 1)`.
 */
module Transform {
  import opened Wrappers
  import opened Curves

  /** The affine parameter map `t |-> t * scalar + move`. */
  function Affine(t: real, scalar: real, move: real): real {
    t * scalar + move
  }

  /** The original parameter that the new parameter `u` stands for. */
  function Preimage(u: real, scalar: real, move: real): real
    requires scalar != 0.0
  {
    (u - move) / scalar
  }

  /**
   * The reparametrized curve: at `Affine(t, scalar, move)` it evaluates as the
   * original does at `t` (position and both derivatives, which are not rescaled),
   * and its range is the image of the original range.
   */
  function Transformed<P, V>(c: Curve<P, V>, scalar: real, move: real): Curve<P, V>
    requires scalar != 0.0
  {
    Curve(
      u => c.subs(Preimage(u, scalar, move)),
      u => c.der(Preimage(u, scalar, move)),
      u => c.der2(Preimage(u, scalar, move)),
      (Affine(c.range.0, scalar, move), Affine(c.range.1, scalar, move)))
  }

  /** `r` evaluates at `u` as `c` does at `t`: position and both derivatives. */
  ghost predicate MatchesAt<P, V>(c: Curve<P, V>, r: Curve<P, V>, t: real, u: real) {
    && r.subs(u) == c.subs(t)
    && r.der(u) == c.der(t)
    && r.der2(u) == c.der2(t)
  }

  /**
   * What the reparametrization test asserts of `r = c.parameter_transformed(scalar, move)`:
   * the range, the evaluations at every parameter `t` it may draw from the range of
   * `c`, and the two end points.
   */
  ghost predicate TransformLaw<P, V>(c: Curve<P, V>, r: Curve<P, V>, scalar: real, move: real) {
    && r.range.0 == Affine(c.range.0, scalar, move)
    && r.range.1 == Affine(c.range.1, scalar, move)
    && (forall t :: Drawable(t, c.range.0, c.range.1) ==> MatchesAt(c, r, t, Affine(t, scalar, move)))
    && Front(r) == Front(c)
    && Back(r) == Back(c)
  }

  lemma PreimageOfAffine(t: real, scalar: real, move: real)
    requires scalar != 0.0
    ensures Preimage(Affine(t, scalar, move), scalar, move) == t
  {
  }

  lemma AffineOfPreimage(u: real, scalar: real, move: real)
    requires scalar != 0.0
    ensures Affine(Preimage(u, scalar, move), scalar, move) == u
  {
  }

  /** At `Affine(t, scalar, move)` the reparametrized curve evaluates as the original at `t`. */
  lemma TransformedAt<P, V>(c: Curve<P, V>, scalar: real, move: real, t: real)
    requires scalar != 0.0
    ensures MatchesAt(c, Transformed(c, scalar, move), t, Affine(t, scalar, move))
  {
    PreimageOfAffine(t, scalar, move);
  }

  /** The reparametrized curve satisfies every law the reparametrization test asserts. */
  lemma TransformedSatisfiesLaw<P, V>(c: Curve<P, V>, scalar: real, move: real)
    requires scalar != 0.0
    ensures TransformLaw(c, Transformed(c, scalar, move), scalar, move)
  {
    var r := Transformed(c, scalar, move);
    forall t | Drawable(t, c.range.0, c.range.1)
      ensures MatchesAt(c, r, t, Affine(t, scalar, move))
    {
      TransformedAt(c, scalar, move, t);
    }
    TransformedAt(c, scalar, move, c.range.0);
    TransformedAt(c, scalar, move, c.range.1);
  }

  /**
   * The affine map carries drawable parameters onto drawable parameters: a
   * parameter the test may draw from the new range stands for one it may draw
   * from the original range, for either sign of `scalar`.
   */
  lemma PreimageDrawable(u: real, scalar: real, move: real, t0: real, t1: real)
    requires scalar != 0.0
    requires Drawable(u, Affine(t0, scalar, move), Affine(t1, scalar, move))
    ensures Drawable(Preimage(u, scalar, move), t0, t1)
  {
    var t := Preimage(u, scalar, move);
    AffineOfPreimage(u, scalar, move);
    if u == Affine(t0, scalar, move) {
      PreimageOfAffine(t0, scalar, move);
    } else if scalar > 0.0 {
      assert (t0 * scalar < t * scalar < t1 * scalar) || (t1 * scalar < t * scalar < t0 * scalar);
    } else {
      assert (t0 * scalar < t * scalar < t1 * scalar) || (t1 * scalar < t * scalar < t0 * scalar);
    }
  }

  /** At a parameter `u` the test may draw from its range, a curve satisfying the laws agrees with `Transformed`. */
  lemma TransformLawAt<P, V>(c: Curve<P, V>, r: Curve<P, V>, scalar: real, move: real, u: real)
    requires scalar != 0.0
    requires TransformLaw(c, r, scalar, move)
    requires Drawable(u, r.range.0, r.range.1)
    ensures AgreeAt(r, Transformed(c, scalar, move), u)
  {
    var t := Preimage(u, scalar, move);
    AffineOfPreimage(u, scalar, move);
    PreimageDrawable(u, scalar, move, c.range.0, c.range.1);
    assert MatchesAt(c, r, t, Affine(t, scalar, move));
  }

  /**
   * The laws pin the result down as far as the test observes it: any curve
   * satisfying them has the range of `Transformed`, agrees with it at every
   * parameter the test may draw from that range, and has the same end points,
   * for either sign of `scalar`.
   */
  lemma TransformLawDeterminesCurve<P, V>(c: Curve<P, V>, r: Curve<P, V>, scalar: real, move: real)
    requires scalar != 0.0
    requires TransformLaw(c, r, scalar, move)
    ensures r.range.0 == Transformed(c, scalar, move).range.0
    ensures r.range.1 == Transformed(c, scalar, move).range.1
    ensures forall u :: Drawable(u, r.range.0, r.range.1) ==> AgreeAt(r, Transformed(c, scalar, move), u)
    ensures Front(r) == Front(Transformed(c, scalar, move))
    ensures Back(r) == Back(Transformed(c, scalar, move))
  {
    forall u | Drawable(u, r.range.0, r.range.1)
      ensures AgreeAt(r, Transformed(c, scalar, move), u)
    {
      TransformLawAt(c, r, scalar, move, u);
    }
    TransformedSatisfiesLaw(c, scalar, move);
  }

  /** Undoing an affine map: the map `(1 / scalar, -move / scalar)` is the preimage. */
  lemma InverseAffine(t: real, scalar: real, move: real)
    requires scalar != 0.0
    ensures Preimage(t, 1.0 / scalar, -move / scalar) == Affine(t, scalar, move)
    ensures Affine(t, 1.0 / scalar, -move / scalar) == Preimage(t, scalar, move)
  {
  }

  /** Transforming by `(1 / scalar, -move / scalar)` undoes a transformation by `(scalar, move)`. */
  lemma TransformInverse<P, V>(c: Curve<P, V>, scalar: real, move: real)
    requires scalar != 0.0
    ensures Equivalent(Transformed(Transformed(c, scalar, move), 1.0 / scalar, -move / scalar), c)
  {
    var inv, back := 1.0 / scalar, -move / scalar;
    var d := Transformed(c, scalar, move);
    var r := Transformed(d, inv, back);
    forall t ensures AgreeAt(r, c, t) {
      InverseAffine(t, scalar, move);
      TransformedAt(c, scalar, move, t);
    }
    InverseAffine(Affine(c.range.0, scalar, move), scalar, move);
    InverseAffine(Affine(c.range.1, scalar, move), scalar, move);
    PreimageOfAffine(c.range.0, scalar, move);
    PreimageOfAffine(c.range.1, scalar, move);
  }

  /** The `(scalar, move)` that `parameter_normalization` computes from the range `(t0, t1)`. */
  function NormalizationScalars(range: (real, real)): (r: (real, real))
    requires range.0 != range.1
    ensures r.0 != 0.0
    ensures Affine(range.0, r.0, r.1) == 0.0 && Affine(range.1, r.0, r.1) == 1.0
  {
    var a := 1.0 / (range.1 - range.0);
    assert Affine(range.1, a, -range.0 * a) == (range.1 - range.0) * a == 1.0;
    (a, -range.0 * a)
  }

  /** Normalizing a curve whose range is already `(0, 1)` is the identity transformation. */
  lemma NormalizationOfUnitRange<P, V>(c: Curve<P, V>)
    requires c.range == (0.0, 1.0)
    ensures NormalizationScalars(c.range) == (1.0, 0.0)
    ensures Equivalent(Transformed(c, 1.0, 0.0), c)
  {
    var r := Transformed(c, 1.0, 0.0);
    forall t ensures AgreeAt(r, c, t) {
      assert Preimage(t, 1.0, 0.0) == t;
    }
  }

  /**
   * The default `parameter_transformed` as it is written: it calls itself again on
   * the clone with the same arguments, discards what that call returns and returns
   * the unchanged clone. `fuel` bounds the recursion depth; `None` means the depth
   * ran out before any call returned.
   */
  function ParameterTransformedAsWritten<P, V>(c: Curve<P, V>, scalar: real, move: real, fuel: nat)
    : (r: Option<Curve<P, V>>)
    ensures r.Some? ==> r.value == c
  {
    if fuel == 0 then None
    else
      var clone := c;
      match ParameterTransformedAsWritten(clone, scalar, move, fuel - 1)
      case None => None
      case Some(_) => Some(clone)
  }

  /** However deep the stack, the default `parameter_transformed` as written never returns. */
  lemma {:induction false} AsWrittenNeverReturns<P, V>(c: Curve<P, V>, scalar: real, move: real, fuel: nat)
    ensures ParameterTransformedAsWritten(c, scalar, move, fuel) == None
  {
    if fuel > 0 {
      AsWrittenNeverReturns(c, scalar, move, fuel - 1);
    }
  }
}
