/**
 * `localExtrema` from src/local-extrema.js: one pass over the samples with a
 * tolerance band, pushing maxima, minima and plateaus as it goes, then the
 * complementary "nonextrema" intervals.  The x value of a sample is its index.
 * The scan keeps its pushes as one list tagged with the array each went to
 * (`ScanState.log`); the arrays returned are its projections.
 */
module LocalExtrema {
  import opened Intervals
  import opened ExtremaScan

  /** What `localExtrema` returns; `nonextrema` is absent when it was not asked for. */
  datatype Extrema = Extrema(
    extrema: seq<Interval>,
    maxima: seq<Interval>,
    minima: seq<Interval>,
    plateaus: seq<Interval>,
    nonextrema: Option<seq<Interval>>)

  /** The options `localExtrema` reads besides the accessors; a missing one takes its default. */
  datatype ScanOptions = ScanOptions(yTolerance: Option<real>, nonextrema: Option<bool>)

  /** The tolerance the scan uses: the one given, or the default 0.1. */
  function ScanTolerance(o: ScanOptions): real
  {
    if o.yTolerance.Some? then o.yTolerance.value else 0.1
  }

  /** Whether `nonextrema` is built: as given, or by default. */
  function NonextremaWanted(o: ScanOptions): bool
  {
    if o.nonextrema.Some? then o.nonextrema.value else true
  }

  /** The intervals linking each reported interval to the next one: from its end to the next one's start. */
  function Links(ext: seq<Interval>): (r: seq<Interval>)
    ensures |r| == if |ext| == 0 then 0 else |ext| - 1
    ensures forall k :: 0 <= k < |r| ==> r[k] == Interval(ext[k].end, ext[k + 1].start)
  {
    if |ext| == 0 then [] else seq(|ext| - 1, k requires 0 <= k < |ext| - 1 => Interval(ext[k].end, ext[k + 1].start))
  }

  /**
   * The nonextrema for `ext` over indices `0..lastIndex`: the whole range when
   * nothing was reported, otherwise a lead-in from 0 (unless the first interval
   * starts there), the links between neighbours, and a run-out to `lastIndex`
   * (unless the last interval ends there).
   */
  function Gaps(ext: seq<Interval>, lastIndex: int): (r: seq<Interval>)
  {
    if |ext| == 0 then [Interval(0, lastIndex)]
    else
      (if ext[0].start != 0 then [Interval(0, ext[0].start)] else []) + Links(ext) +
      (if Last(ext).end != lastIndex then [Interval(Last(ext).end, lastIndex)] else [])
  }

  /**
   * Samples 0 and 1 set the first run; if they are level, the seek loop runs
   * to the end of the leading plateau and reports it as a maximum or a
   * minimum.  Returns the scan state, the index at which the main loop starts
   * and the last sample read.
   */
  method Begin(ys: seq<real>, tol: real) returns (s: ScanState, i: nat, thisY: real)
    requires |ys| >= 3
    ensures (s, i) == Start(ys, tol, Current)
    ensures thisY == ys[if i <= |ys| then i - 1 else |ys| - 1]
  {
    var lastSlope := Undefined;
    var lastMin := ys[0];
    var lastMax := ys[0];
    var pushes: seq<Emission> := [];
    thisY := ys[1];
    i := 2;
    if thisY < lastMax - tol {
      lastSlope := Falling;
      lastMin := thisY;
    } else if thisY > lastMin + tol {
      lastSlope := Rising;
      lastMax := thisY;
    } else {
      // seek to the end of the plateau
      while i < |ys|
        invariant 2 <= i <= |ys| && thisY == ys[i - 1]
        invariant PlateauExit(ys, tol, i) == PlateauExit(ys, tol, 2)
        invariant lastSlope == Undefined && lastMin == lastMax == ys[0] && pushes == []
      {
        thisY := ys[i];
        if thisY < lastMax - tol {
          pushes := pushes + [Emission(Maximum, if i > 1 then Interval(0, i - 1) else Interval(0, i))];
          assert PlateauExit(ys, tol, 2) == i;
          assert Start(ys, tol, Current).0 == ScanState(Falling, thisY, ys[0], 0, pushes);
          lastSlope := Falling;
          lastMin := thisY;
          break;
        } else if thisY > lastMin + tol {
          pushes := pushes + [Emission(Minimum, if i > 1 then Interval(0, i - 1) else Interval(0, i))];
          assert PlateauExit(ys, tol, 2) == i;
          assert Start(ys, tol, Current).0 == ScanState(Rising, ys[0], thisY, 0, pushes);
          lastSlope := Rising;
          lastMax := thisY;
          break;
        }
        i := i + 1;
      }
      assert lastSlope == Undefined ==> PlateauExit(ys, tol, 2) == |ys|;
      i := i + 1;
    }
    s := ScanState(lastSlope, lastMin, lastMax, 0, pushes);
  }

  /**
   * One sample of the main loop while rising: extend the run (counting a
   * plateau inside the band, reporting it when the run breaks upwards), or
   * report the maximum and turn.
   */
  method RisingSample(ys: seq<real>, tol: real, s: ScanState, i: nat, thisY: real) returns (t: ScanState)
    requires 1 <= i < |ys| && thisY == ys[i] && s.slope == Rising
    requires exists j :: 0 <= j < i - 1 && ys[j] < s.lastMax - tol
    ensures t == Step(ys, tol, Current, s, i)
  {
    RisingStepCases(ys, tol, Current, s, i);
    var lastMax := s.lastMax;
    var plateauLength := s.plateauLength;
    var pushes := s.log;
    if thisY >= lastMax - tol {
      if thisY < lastMax + tol {
        plateauLength := plateauLength + 1;
      } else {
        if plateauLength > 0 {
          pushes := pushes + [Emission(Plateau, Interval(i - plateauLength - 1, i - 1))];
        }
        plateauLength := 0;
      }
      lastMax := Max(lastMax, thisY);
      t := s.(lastMax := lastMax, plateauLength := plateauLength, log := pushes);
    } else {
      // find the start of the maximum
      var iStart := StartAbove(ys, i, lastMax - tol);
      pushes := pushes + [Emission(Maximum, if i - iStart >= 2 then Interval(iStart + 1, i - 1) else Interval(iStart, i))];
      t := ScanState(Falling, thisY, lastMax, 0, pushes);
    }
  }

  /** One sample of the main loop while falling: the mirror image of `RisingSample`. */
  method FallingSample(ys: seq<real>, tol: real, s: ScanState, i: nat, thisY: real) returns (t: ScanState)
    requires 1 <= i < |ys| && thisY == ys[i] && s.slope == Falling
    requires exists j :: 0 <= j < i - 1 && ys[j] > s.lastMin + tol
    ensures t == Step(ys, tol, Current, s, i)
  {
    FallingStepCases(ys, tol, Current, s, i);
    var lastMin := s.lastMin;
    var plateauLength := s.plateauLength;
    var pushes := s.log;
    if thisY <= lastMin + tol {
      if thisY > lastMin - tol {
        plateauLength := plateauLength + 1;
      } else {
        if plateauLength > 0 {
          pushes := pushes + [Emission(Plateau, Interval(i - plateauLength - 1, i - 1))];
        }
        plateauLength := 0;
      }
      lastMin := Min(lastMin, thisY);
      t := s.(lastMin := lastMin, plateauLength := plateauLength, log := pushes);
    } else {
      // find the start of the minimum
      var iStart := StartBelow(ys, i, lastMin + tol);
      pushes := pushes + [Emission(Minimum, if i - iStart >= 2 then Interval(iStart + 1, i - 1) else Interval(iStart, i))];
      t := ScanState(Rising, lastMin, thisY, 0, pushes);
    }
  }

  /** A plateau still open at the last sample is reported: a maximum if the last sample is above `lastMax - tol`, else a minimum. */
  method Finish(ys: seq<real>, tol: real, s: ScanState, thisY: real) returns (pushes: seq<Emission>)
    requires |ys| >= 1 && thisY == ys[|ys| - 1]
    ensures pushes == s.log + Trailing(ys, tol, Current, s)
  {
    var i := |ys| - 1;
    pushes := s.log;
    if s.plateauLength > 0 {
      if thisY > s.lastMax - tol {
        pushes := pushes + [Emission(Maximum, Interval(i - s.plateauLength, i))];
      } else {
        pushes := pushes + [Emission(Minimum, Interval(i - s.plateauLength, i))];
      }
    }
  }

  /** The start of the scan and its main loop; returns the state and the last sample read. */
  method MainLoop(ys: seq<real>, tol: real) returns (s: ScanState, thisY: real)
    requires |ys| >= 3 && tol > 0.0
    ensures s == MainPass(ys, tol, Current) && thisY == ys[|ys| - 1]
  {
    var i;
    s, i, thisY := Begin(ys, tol);
    StartReady(ys, tol, Current);
    if s.slope == Undefined {
      return;
    }
    while i < |ys|
      invariant Good(ys, tol, Current, s, i) && thisY == ys[i - 1]
      invariant Run(ys, tol, Current, s, i) == MainPass(ys, tol, Current)
    {
      thisY := ys[i];
      s := Sample(ys, tol, s, i, thisY);
      i := i + 1;
    }
  }

  /** One iteration of the main loop, rising or falling as the state says. */
  method Sample(ys: seq<real>, tol: real, s: ScanState, i: nat, thisY: real) returns (t: ScanState)
    requires Good(ys, tol, Current, s, i) && i < |ys| && thisY == ys[i]
    ensures t == Step(ys, tol, Current, s, i) && Good(ys, tol, Current, t, i + 1)
  {
    StepKeepsGood(ys, tol, Current, s, i);
    if s.slope == Rising {
      assert RisingOk(ys, tol, s, i);
      t := RisingSample(ys, tol, s, i, thisY);
    } else {
      assert FallingOk(ys, tol, s, i);
      t := FallingSample(ys, tol, s, i, thisY);
    }
  }

  /**
   * The scan of src/local-extrema.js.  Fewer than three samples give empty
   * results; otherwise the four result lists are the pushes of the scanner
   * specification with the `Current` policy, sorted by kind.  The
   * nonextrema, built unless switched off, are the gaps between the extrema,
   * and the two together cover every sample.  Missing options take their
   * defaults.
   */
  method LocalExtrema(ys: seq<real>, options: ScanOptions) returns (r: Extrema)
    requires ScanTolerance(options) > 0.0
    ensures |ys| < 3 ==> r == Extrema([], [], [], [], Some([]))
    ensures |ys| >= 3 ==>
      var log := Scan(ys, ScanTolerance(options), Current);
      r.extrema == AllIntervals(log) && r.maxima == OfKind(log, Maximum) &&
      r.minima == OfKind(log, Minimum) && r.plateaus == OfKind(log, Plateau) &&
      r.nonextrema == if NonextremaWanted(options) then Some(Gaps(r.extrema, |ys| - 1)) else None
    ensures |ys| >= 3 && r.nonextrema.Some? ==>
      forall p :: 0 <= p < |ys| ==> InSome(r.extrema, p) || InSome(r.nonextrema.value, p)
  {
    if |ys| < 3 {
      return Extrema([], [], [], [], Some([]));
    }
    var tol := ScanTolerance(options);
    var wantNonextrema := NonextremaWanted(options);
    var s, thisY := MainLoop(ys, tol);
    var pushes := Finish(ys, tol, s, thisY);
    var extrema := AllIntervals(pushes);
    var nonextrema := None;
    if wantNonextrema {
      var gaps := NonExtrema(extrema, |ys| - 1);
      nonextrema := Some(gaps);
    }
    GapsComplete(extrema, |ys| - 1);
    r := Extrema(extrema, OfKind(pushes, Maximum), OfKind(pushes, Minimum), OfKind(pushes, Plateau), nonextrema);
  }

  /** The complement loop of `localExtrema`: the gaps between the reported intervals. */
  method NonExtrema(extrema: seq<Interval>, lastIndex: int) returns (nonextrema: seq<Interval>)
    ensures nonextrema == Gaps(extrema, lastIndex)
  {
    nonextrema := [];
    if |extrema| == 0 {
      nonextrema := nonextrema + [Interval(0, lastIndex)];
    } else {
      var a := 0;
      var b := extrema[0].start;
      if a != b {
        nonextrema := nonextrema + [Interval(a, b)];
      }
      ghost var lead := nonextrema;
      nonextrema := PushLinks(extrema, nonextrema);
      ghost var middle := nonextrema;
      a := extrema[|extrema| - 1].end;
      b := lastIndex;
      if a != b {
        nonextrema := nonextrema + [Interval(a, b)];
      }
      GapsParts(extrema, lastIndex, lead, nonextrema[|middle|..]);
    }
  }

  /** `Gaps` split into its lead-in, its links and its run-out. */
  lemma GapsParts(ext: seq<Interval>, lastIndex: int, lead: seq<Interval>, tail: seq<Interval>)
    requires ext != []
    requires lead == if ext[0].start != 0 then [Interval(0, ext[0].start)] else []
    requires tail == if Last(ext).end != lastIndex then [Interval(Last(ext).end, lastIndex)] else []
    ensures Gaps(ext, lastIndex) == lead + Links(ext) + tail
  {
  }

  /** The middle loop of the complement: one link per pair of neighbours, appended to `acc`. */
  method PushLinks(extrema: seq<Interval>, acc: seq<Interval>) returns (nonextrema: seq<Interval>)
    ensures nonextrema == acc + Links(extrema)
  {
    nonextrema := acc;
    ghost var links := Links(extrema);
    var i := 0;
    while i < |extrema| - 1
      invariant 0 <= i <= |links|
      invariant nonextrema == acc + links[..i]
    {
      assert links[..i + 1] == links[..i] + [Interval(extrema[i].end, extrema[i + 1].start)];
      nonextrema := nonextrema + [Interval(extrema[i].end, extrema[i + 1].start)];
      i := i + 1;
    }
    assert links[..i] == links;
  }

  /** Intervals in order, each running forwards, within `[0, lastIndex]`, each ending no later than the next starts. */
  ghost predicate Ordered(ext: seq<Interval>, lastIndex: int)
  {
    (forall k :: 0 <= k < |ext| ==> 0 <= ext[k].start <= ext[k].end <= lastIndex) &&
    (forall j, k :: 0 <= j < k < |ext| ==> ext[j].end <= ext[k].start)
  }

  /** Index `p` lies inside one of `ivs`. */
  ghost predicate InSome(ivs: seq<Interval>, p: int)
  {
    exists k :: 0 <= k < |ivs| && ivs[k].start <= p <= ivs[k].end
  }

  /**
   * Whatever the extrema, ordered or not, the nonextrema are the rest of the
   * samples: together with the extrema they cover every index in `[0, lastIndex]`.
   */
  lemma GapsComplete(ext: seq<Interval>, lastIndex: int)
    ensures forall p :: 0 <= p <= lastIndex ==> InSome(ext, p) || InSome(Gaps(ext, lastIndex), p)
  {
    var g := Gaps(ext, lastIndex);
    forall p | 0 <= p <= lastIndex
      ensures InSome(ext, p) || InSome(g, p)
    {
      if ext == [] {
        assert g[0].start <= p <= g[0].end;
      } else {
        var lead := if ext[0].start != 0 then [Interval(0, ext[0].start)] else [];
        var tail := if Last(ext).end != lastIndex then [Interval(Last(ext).end, lastIndex)] else [];
        assert g == lead + Links(ext) + tail;
        GapsCover(ext, lastIndex, p, lead, Links(ext), tail);
      }
    }
  }

  /**
   * For ordered extrema every nonextrema interval also runs forwards within
   * `[0, lastIndex]`.  Nested or overlapping extrema, which the scan does
   * report, give a link that runs backwards.
   */
  lemma GapsForward(ext: seq<Interval>, lastIndex: int)
    requires lastIndex >= 0 && Ordered(ext, lastIndex)
    ensures Forward(Gaps(ext, lastIndex), lastIndex)
  {
    if ext != [] {
      var lead := if ext[0].start != 0 then [Interval(0, ext[0].start)] else [];
      var links := Links(ext);
      var tail := if Last(ext).end != lastIndex then [Interval(Last(ext).end, lastIndex)] else [];
      assert Forward(links, lastIndex) by {
        forall k | 0 <= k < |links|
          ensures 0 <= links[k].start <= links[k].end <= lastIndex
        {
          assert ext[k].end <= ext[k + 1].start;
        }
      }
      ForwardConcat(lead, links, lastIndex);
      ForwardConcat(lead + links, tail, lastIndex);
    }
  }

  /** One index of `GapsComplete`'s coverage, with the three parts of the gaps named. */
  lemma GapsCover(ext: seq<Interval>, lastIndex: int, p: int,
                  lead: seq<Interval>, links: seq<Interval>, tail: seq<Interval>)
    requires ext != [] && 0 <= p <= lastIndex
    requires lead == if ext[0].start != 0 then [Interval(0, ext[0].start)] else []
    requires links == Links(ext)
    requires tail == if Last(ext).end != lastIndex then [Interval(Last(ext).end, lastIndex)] else []
    ensures InSome(ext, p) || InSome(lead + links + tail, p)
  {
    var g := lead + links + tail;
    if p < ext[0].start {
      assert g[0].start <= p <= g[0].end;
    } else if p > Last(ext).end {
      assert g[|g| - 1].start <= p <= g[|g| - 1].end;
    } else {
      var m, inside := Locate(ext, p, 0);
      if inside {
        assert ext[m].start <= p <= ext[m].end;
      } else {
        assert g[|lead| + m] == links[m];
        assert g[|lead| + m].start <= p <= g[|lead| + m].end;
      }
    }
  }

  /**
   * An index between the start of `ext[k]` and the end of the last interval
   * lies inside some `ext[m]` (`inside`) or on the link from `ext[m]` to `ext[m + 1]`.
   */
  lemma {:induction false} Locate(ext: seq<Interval>, p: int, k: nat) returns (m: nat, inside: bool)
    requires k < |ext| && ext[k].start <= p <= Last(ext).end
    ensures k <= m < |ext|
    ensures inside ==> ext[m].start <= p <= ext[m].end
    ensures !inside ==> m < |ext| - 1 && ext[m].end <= p <= ext[m + 1].start
    decreases |ext| - k
  {
    if p <= ext[k].end {
      m, inside := k, true;
    } else if p <= ext[k + 1].start {
      m, inside := k, false;
    } else {
      m, inside := Locate(ext, p, k + 1);
    }
  }
}
