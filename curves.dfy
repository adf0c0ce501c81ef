/**
 * The parametric-curve contract: a curve evaluates to a point, a first and a
 * second derivative at a real parameter, and has a parameter range `(t0, t1)`.
 * A curve is a value; `Front` and `Back` are derived from `subs` and the range.
 */
module Curves {

  /**
   * A parametric curve in the space of points `P`, whose derivatives live in `V`.
   * `subs`, `der` and `der2` are the evaluation maps and `range` is the pair
   * `(t0, t1)` returned by `parameter_range`.
   */
  datatype Curve<P, V> = Curve(subs: real -> P, der: real -> V, der2: real -> V, range: (real, real))

  /** The front end point: the position at the start of the range. */
  function Front<P, V>(c: Curve<P, V>): P {
    c.subs(c.range.0)
  }

  /** The back end point: the position at the end of the range. */
  function Back<P, V>(c: Curve<P, V>): P {
    c.subs(c.range.1)
  }

  /**
   * The range is increasing, `t0 <= t1`. The contract allows either order (a
   * reparametrization with a negative scale reverses it); the concatenation and
   * cut lemmas are stated for increasing ranges.
   */
  predicate WellFormed<P, V>(c: Curve<P, V>) {
    c.range.0 <= c.range.1
  }

  /** The parameter `(1 - p) * lo + p * hi` that a random test computes from its draw `p`. */
  function Sample(lo: real, hi: real, p: real): real {
    (1.0 - p) * lo + p * hi
  }

  /**
   * The parameters a random test can reach from `lo` towards `hi` with a draw
   * `p` in `[0, 1)`: `lo` itself and everything strictly between the two.
   */
  predicate Drawable(t: real, lo: real, hi: real) {
    t == lo || (lo < t < hi) || (hi < t < lo)
  }

  /** `Drawable` is exactly the set of samples `Sample(lo, hi, p)` with `0 <= p < 1`. */
  lemma DrawableIsSampled(t: real, lo: real, hi: real)
    ensures Drawable(t, lo, hi) <==> exists p :: 0.0 <= p < 1.0 && t == Sample(lo, hi, p)
  {
    if Drawable(t, lo, hi) {
      var p := DrawOf(t, lo, hi);
      assert 0.0 <= p < 1.0 && t == Sample(lo, hi, p);
    }
    if exists p :: 0.0 <= p < 1.0 && t == Sample(lo, hi, p) {
      var p :| 0.0 <= p < 1.0 && t == Sample(lo, hi, p);
      SampleIsBetween(lo, hi, p);
    }
  }

  /** The draw `p` that yields a drawable parameter `t`. */
  lemma DrawOf(t: real, lo: real, hi: real) returns (p: real)
    requires Drawable(t, lo, hi)
    ensures 0.0 <= p < 1.0 && t == Sample(lo, hi, p)
  {
    if t == lo {
      p := 0.0;
    } else {
      var d := hi - lo;
      p := (t - lo) / d;
      assert p * d == t - lo;
      var q := 1.0 - p;
      assert q * d == hi - t;
      if lo < hi {
        assert lo < t < hi;
        PositiveFactor(p, d);
        PositiveFactor(q, d);
      } else {
        assert hi < t < lo;
        assert p * -d == lo - t && q * -d == t - hi;
        PositiveFactor(p, -d);
        PositiveFactor(q, -d);
      }
      assert Sample(lo, hi, p) == lo + p * d;
    }
  }

  /** A product with a positive factor is positive exactly when the other factor is. */
  lemma PositiveFactor(a: real, b: real)
    requires b > 0.0
    ensures a * b > 0.0 <==> a > 0.0
  {
    if a > 0.0 {
      assert a * b > 0.0;
    } else {
      assert a * b <= 0.0;
    }
  }

  lemma SampleIsBetween(lo: real, hi: real, p: real)
    requires 0.0 <= p < 1.0
    ensures Drawable(Sample(lo, hi, p), lo, hi)
  {
    var t, q, d := Sample(lo, hi, p), 1.0 - p, hi - lo;
    assert t - lo == p * d;
    assert hi - t == q * d;
    if p > 0.0 && lo < hi {
      PositiveFactor(p, d);
      PositiveFactor(q, d);
    } else if p > 0.0 && hi < lo {
      PositiveFactor(p, -d);
      PositiveFactor(q, -d);
      assert p * -d == -(p * d) && q * -d == -(q * d);
    }
  }

  /** `c` and `d` have the same position and derivatives at parameter `t`. */
  ghost predicate AgreeAt<P, V>(c: Curve<P, V>, d: Curve<P, V>, t: real) {
    c.subs(t) == d.subs(t) && c.der(t) == d.der(t) && c.der2(t) == d.der2(t)
  }

  /** `c` and `d` have the same range and agree at every parameter. */
  ghost predicate Equivalent<P, V>(c: Curve<P, V>, d: Curve<P, V>) {
    c.range == d.range && forall t :: AgreeAt(c, d, t)
  }
}
