/**
 * `CurveCollector`: a fold accumulator that is either `Singleton` (nothing
 * collected yet) or holds the curve concatenated so far, updated in place.
 */
module Collector {
  import opened Wrappers
  import opened Curves
  import opened Concatenation

  /** The two states of a collector. */
  datatype CollectorState<P, V> = Singleton | Collected(curve: Curve<P, V>)

  /** `is_singleton`: whether nothing has been collected. */
  predicate IsSingleton<P, V>(s: CollectorState<P, V>) {
    s.Singleton?
  }

  /** The conversion into `Option`: `Singleton` is `None`, a held curve is `Some`. */
  function ToOption<P, V>(s: CollectorState<P, V>): (o: Option<Curve<P, V>>)
    ensures o.None? <==> IsSingleton(s)
    ensures s.Collected? ==> o == Some(s.curve)
  {
    match s
    case Singleton => None
    case Collected(c) => Some(c)
  }

  /** `unwrap`: the held curve (the source panics on `Singleton`). */
  function Unwrap<P, V>(s: CollectorState<P, V>): (c: Curve<P, V>)
    requires !IsSingleton(s)
    ensures c == s.curve && ToOption(s) == Some(c)
  {
    s.curve
  }

  /**
   * One `try_concat` step on the state: the first segment is taken as it is;
   * later segments are concatenated onto the held curve, and an error leaves
   * the state as it was.
   */
  function Step<P(==), V>(s: CollectorState<P, V>, segment: Curve<P, V>)
    : (r: Result<CollectorState<P, V>, ConcatError<P>>)
    ensures IsSingleton(s) ==> r == Ok(Collected(segment))
    ensures r.Ok? ==> !IsSingleton(r.value)
    ensures !IsSingleton(s) ==> (r.Ok? <==> TryConcat(s.curve, segment).Ok?)
    ensures r.Err? ==> r == Err(TryConcat(s.curve, segment).error)
    ensures !IsSingleton(s) && TryConcat(s.curve, segment).Ok? ==>
              r == Ok(Collected(TryConcat(s.curve, segment).value))
  {
    match s
    case Singleton => Ok(Collected(segment))
    case Collected(c) =>
      match TryConcat(c, segment)
      case Ok(d) => Ok(Collected(d))
      case Err(e) => Err(e)
  }

  /** Feeding `segments` in order to `try_concat`, stopping at the first error. */
  function Collect<P(==), V>(s: CollectorState<P, V>, segments: seq<Curve<P, V>>)
    : Result<CollectorState<P, V>, ConcatError<P>>
  {
    if segments == [] then Ok(s)
    else
      match Collect(s, segments[..|segments| - 1])
      case Err(e) => Err(e)
      case Ok(s') => Step(s', segments[|segments| - 1])
  }

  /** Concatenating a non-empty list of segments left to right, stopping at the first error. */
  function ConcatAll<P(==), V>(segments: seq<Curve<P, V>>): Result<Curve<P, V>, ConcatError<P>>
    requires |segments| > 0
  {
    if |segments| == 1 then Ok(segments[0])
    else
      match ConcatAll(segments[..|segments| - 1])
      case Err(e) => Err(e)
      case Ok(c) => TryConcat(c, segments[|segments| - 1])
  }

  /** Each segment ends where the next one starts, in parameter and in point. */
  ghost predicate Adjacent<P, V>(segments: seq<Curve<P, V>>) {
    forall i :: 0 < i < |segments| ==>
      segments[i - 1].range.1 == segments[i].range.0 && Back(segments[i - 1]) == Front(segments[i])
  }

  /**
   * Collecting from an empty collector is concatenating the segments directly:
   * the same curve on success, the same error on failure.
   */
  lemma {:induction false} CollectIsConcatAll<P, V>(segments: seq<Curve<P, V>>)
    requires |segments| > 0
    ensures Collect(Singleton, segments) ==
              match ConcatAll(segments)
              case Ok(c) => Ok(Collected(c))
              case Err(e) => Err(e)
  {
    var n := |segments|;
    if n == 1 {
      assert segments[..0] == [];
    } else {
      CollectIsConcatAll(segments[..n - 1]);
      assert segments[..n - 1][..n - 2] == segments[..n - 2];
    }
  }

  /**
   * Adjacent well-formed segments always concatenate, into a well-formed curve from
   * the start of the first segment to the end of the last, with the first
   * segment's front and the last segment's back.
   */
  lemma {:induction false} AdjacentConcatAll<P, V>(segments: seq<Curve<P, V>>)
    requires |segments| > 0 && Adjacent(segments)
    requires forall i :: 0 <= i < |segments| ==> WellFormed(segments[i])
    ensures ConcatAll(segments).Ok?
    ensures WellFormed(ConcatAll(segments).value)
    ensures ConcatAll(segments).value.range.0 == segments[0].range.0
    ensures ConcatAll(segments).value.range.1 == segments[|segments| - 1].range.1
    ensures Front(ConcatAll(segments).value) == Front(segments[0])
    ensures Back(ConcatAll(segments).value) == Back(segments[|segments| - 1])
  {
    var n := |segments|;
    if n > 1 {
      var init := segments[..n - 1];
      assert Adjacent(init) by {
        forall i | 0 < i < |init|
          ensures init[i - 1].range.1 == init[i].range.0 && Back(init[i - 1]) == Front(init[i])
        {
          assert init[i - 1] == segments[i - 1] && init[i] == segments[i];
        }
      }
      AdjacentConcatAll(init);
      var c := ConcatAll(init).value;
      var last := segments[n - 1];
      assert segments[n - 2].range.1 == last.range.0 && Back(segments[n - 2]) == Front(last);
      TryConcatSatisfiesLaw(c, last);
    }
  }

  /** A collector, updated in place by `try_concat` and `concat`. */
  class CurveCollector<P(==), V> {
    var state: CollectorState<P, V>

    /** A fresh collector is `Singleton`. */
    constructor ()
      ensures state == Singleton
    {
      state := Singleton;
    }

    /**
     * `try_concat`: takes the first segment as the held curve, concatenates later
     * ones onto it; on an error, returns it and keeps the held curve. On success it
     * returns the collector itself, for chaining.
     */
    method TryConcat(segment: Curve<P, V>) returns (r: Result<CurveCollector<P, V>, ConcatError<P>>)
      modifies this
      ensures old(state).Singleton? ==> r == Ok(this) && state == Collected(segment)
      ensures old(state).Collected? ==>
                match Concatenation.TryConcat(old(state).curve, segment)
                case Ok(c) => r == Ok(this) && state == Collected(c)
                case Err(e) => r == Err(e) && state == old(state)
      ensures r.Ok? <==> Step(old(state), segment).Ok?
      ensures state == if r.Ok? then Step(old(state), segment).value else old(state)
    {
      match state
      case Singleton =>
        state := Collected(segment);
        r := Ok(this);
      case Collected(c) =>
        var joined := Concatenation.TryConcat(c, segment);
        if joined.Err? {
          return Err(joined.error);
        }
        state := Collected(joined.value);
        r := Ok(this);
    }

    /** `concat`: `TryConcat` for callers that know it succeeds (the source panics otherwise). */
    method Concat(segment: Curve<P, V>)
      requires Step(state, segment).Ok?
      modifies this
      ensures state == Step(old(state), segment).value
    {
      var r := TryConcat(segment);
    }
  }
}
