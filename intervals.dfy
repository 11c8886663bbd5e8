/**
 * Intervals and the record of what an extrema scanner pushes.
 *
 * Both scanners (src/local-extrema.js and extremaXY in diff.js) push inclusive
 * intervals onto result arrays as they go.  The model keeps one log of those
 * pushes, in order, tagged with the array they went to; each result array is
 * then a projection of the log.
 */
module Intervals {

  /** An inclusive interval `[start, end]` of x-coordinates; x is the sample index. */
  datatype Interval = Interval(start: int, end: int)

  /** Which result array an interval is pushed to. */
  datatype Kind = Maximum | Minimum | Plateau

  /** One push of an interval, in the order the scanner performs them. */
  datatype Emission = Emission(kind: Kind, iv: Interval)

  /** A value that may be absent, as an option left out or an array not built. */
  datatype Option<T> = None | Some(value: T)

  function Last<T>(s: seq<T>): T
    requires |s| > 0
  {
    s[|s| - 1]
  }

  /** Every emitted interval, in emission order: the `extrema` array. */
  function AllIntervals(log: seq<Emission>): (r: seq<Interval>)
    ensures |r| == |log|
    ensures forall k :: 0 <= k < |log| ==> r[k] == log[k].iv
  {
    if log == [] then [] else AllIntervals(log[..|log| - 1]) + [Last(log).iv]
  }

  /** The intervals of one kind, in emission order: `maxima`, `minima` or `plateaus`. */
  function OfKind(log: seq<Emission>, k: Kind): (r: seq<Interval>)
    ensures |r| <= |log|
  {
    if log == [] then []
    else OfKind(log[..|log| - 1], k) + (if Last(log).kind == k then [Last(log).iv] else [])
  }

  /** The maximum and minimum emissions, plateaus dropped. */
  function Turns(log: seq<Emission>): (r: seq<Emission>)
    ensures |r| <= |log|
    ensures forall k :: 0 <= k < |r| ==> r[k].kind != Plateau
  {
    if log == [] then []
    else Turns(log[..|log| - 1]) + (if Last(log).kind == Plateau then [] else [Last(log)])
  }

  /** Appending one emission appends to exactly the arrays it belongs to. */
  lemma Push(log: seq<Emission>, e: Emission)
    ensures AllIntervals(log + [e]) == AllIntervals(log) + [e.iv]
    ensures forall k :: OfKind(log + [e], k) == OfKind(log, k) + (if e.kind == k then [e.iv] else [])
    ensures Turns(log + [e]) == Turns(log) + (if e.kind == Plateau then [] else [e])
  {
    assert (log + [e])[..|log|] == log;
  }

  /**
   * `extrema` holds exactly what went to `maxima`, `minima` and `plateaus`:
   * each push goes to one of the three and to `extrema`.
   */
  lemma {:induction false} CountByKind(log: seq<Emission>)
    ensures |AllIntervals(log)| == |OfKind(log, Maximum)| + |OfKind(log, Minimum)| + |OfKind(log, Plateau)|
  {
    if log != [] {
      var init := log[..|log| - 1];
      CountByKind(init);
      assert log == init + [Last(log)];
      Push(init, Last(log));
    }
  }

  /** Dropping the plateaus does not change the maxima or the minima. */
  lemma {:induction false} TurnsKeepKind(log: seq<Emission>, k: Kind)
    requires k != Plateau
    ensures OfKind(Turns(log), k) == OfKind(log, k)
  {
    if log != [] {
      var init, e := log[..|log| - 1], Last(log);
      TurnsKeepKind(init, k);
      if e.kind != Plateau {
        assert Turns(log) == Turns(init) + [e];
        Push(Turns(init), e);
      } else {
        assert Turns(log) == Turns(init);
        assert OfKind(log, k) == OfKind(init, k);
      }
    }
  }

  /** Every interval of `ivs` runs forwards within `[0, lastIndex]`. */
  ghost predicate Forward(ivs: seq<Interval>, lastIndex: int)
  {
    forall k :: 0 <= k < |ivs| ==> 0 <= ivs[k].start <= ivs[k].end <= lastIndex
  }

  lemma ForwardConcat(a: seq<Interval>, b: seq<Interval>, lastIndex: int)
    requires Forward(a, lastIndex) && Forward(b, lastIndex)
    ensures Forward(a + b, lastIndex)
  {
    forall k | 0 <= k < |a + b|
      ensures 0 <= (a + b)[k].start <= (a + b)[k].end <= lastIndex
    {
      if k >= |a| {
        assert (a + b)[k] == b[k - |a|];
      }
    }
  }
}
