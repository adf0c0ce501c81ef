/**
 * Splitting a curve at a parameter (`Cut`): the former part keeps the range up to
 * the cut and the latter part takes the rest, both evaluating as the original.
 */
module Cutting {
  import opened Curves
  import opened Concatenation

  /** The two parts of `c` cut at `t`: the former on `(t0, t)`, the latter on `(t, t1)`. */
  function CutAt<P, V>(c: Curve<P, V>, t: real): (Curve<P, V>, Curve<P, V>) {
    (Curve(c.subs, c.der, c.der2, (c.range.0, t)), Curve(c.subs, c.der, c.der2, (t, c.range.1)))
  }

  /**
   * What the cut test asserts after `former = c.clone(); latter = former.cut(t)`: the
   * ranges split the original at `t`, each part evaluates as the original at every
   * parameter the test may draw from the start of its range towards the end, the
   * former part ends and the latter starts at the original's point at `t`, and the
   * outer end points are the original's.
   */
  ghost predicate CutLaw<P, V>(c: Curve<P, V>, t: real, former: Curve<P, V>, latter: Curve<P, V>) {
    && former.range.0 == c.range.0 && former.range.1 == t
    && latter.range.0 == t && latter.range.1 == c.range.1
    && (forall s :: Drawable(s, c.range.0, t) ==> AgreeAt(former, c, s))
    && (forall s :: Drawable(s, t, c.range.1) ==> AgreeAt(latter, c, s))
    && Front(former) == Front(c)
    && Back(former) == c.subs(t)
    && Front(latter) == c.subs(t)
    && Back(latter) == Back(c)
  }

  /** Cutting at any parameter satisfies the cut laws. */
  lemma CutAtSatisfiesLaw<P, V>(c: Curve<P, V>, t: real)
    ensures CutLaw(c, t, CutAt(c, t).0, CutAt(c, t).1)
  {
  }

  /**
   * Cutting and concatenating again restores the curve as far as the tests observe
   * it: for parts satisfying the cut laws at a `t` in the range, `TryConcat`
   * succeeds, and the result has the original range, agrees with the original at
   * every parameter the tests may draw from that range, and has its end points.
   */
  lemma CutThenConcat<P, V>(c: Curve<P, V>, t: real, former: Curve<P, V>, latter: Curve<P, V>)
    requires c.range.0 <= t <= c.range.1
    requires CutLaw(c, t, former, latter)
    ensures TryConcat(former, latter).Ok?
    ensures TryConcat(former, latter).value.range == c.range
    ensures forall s :: Drawable(s, c.range.0, c.range.1) ==> AgreeAt(TryConcat(former, latter).value, c, s)
    ensures Front(TryConcat(former, latter).value) == Front(c)
    ensures Back(TryConcat(former, latter).value) == Back(c)
  {
    var r := TryConcat(former, latter).value;
    assert r == Joined(former, latter);
    forall s | Drawable(s, c.range.0, c.range.1)
      ensures AgreeAt(r, c, s)
    {
      if s < t {
        assert AgreeAt(former, c, s);
      } else {
        assert AgreeAt(latter, c, s);
      }
    }
  }
}
