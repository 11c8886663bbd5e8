/**
 * diff.js: `diffXY` and `diff` (n-fold divided differences, in place),
 * `integralXY` and `integral` (the reverse running sum, in place),
 * `extremaXY`, the older scanner, which labels each reported interval with
 * the x values at its ends, and `extrema`, which runs it over the indices and
 * reports the key at the centre of each interval.
 */
module DiffJs {
  import opened Intervals
  import opened ExtremaScan
  import opened FiniteDifferences

  /**
   * `diffXY`: for `n > 1` it first differences `n - 1` times (popping the x
   * array at every level above the first), then pops the x array once more,
   * then takes one more step; `n <= 1` is a single step.  Both arrays are
   * changed in place and the y array itself is returned.
   */
  method DiffXY(xs: JsArray, ys: JsArray, n: int) returns (r: JsArray)
    requires xs != ys && StepsNonzero(xs.items, ys.items)
    modifies xs, ys
    ensures r == ys
    ensures ys.items == NthDifferences(old(xs.items), old(ys.items), n)
    ensures xs.items == Dropped(old(xs.items), if n > 1 then n - 1 else 0)
    decreases n
  {
    ghost var x0, y0 := xs.items, ys.items;
    if n > 1 {
      r := DiffXY(xs, ys, n - 1);
      xs.Pop();
      assert xs.items == Dropped(x0, n - 1);
      DroppedStepsNonzero(x0, y0, n - 1, ys.items);
    }
    DifferenceStep(xs, ys);
    r := ys;
  }

  /**
   * `diff`: `diffXY` with the indices `0, 1, ..., m - 1` as x values.  The
   * array passed in is the one rewritten and returned.
   */
  method Diff(values: JsArray, n: int) returns (r: JsArray)
    modifies values
    ensures r == values
    ensures values.items == NthDifferences(Positions(|old(values.items)|), old(values.items), n)
  {
    var xs := new JsArray(Positions(|values.items|));
    r := DiffXY(xs, values, n);
  }

  /** `integralXY` for order `n <= 1`: one reverse-sum step on the y array, which is returned. */
  method IntegralXY(xs: JsArray, ys: JsArray, n: int) returns (r: JsArray)
    requires xs != ys && Span(xs.items, ys.items) >= 1 && n <= 1
    modifies ys
    ensures r == ys && ys.items == ReverseSums(old(xs.items), old(ys.items))
  {
    ReverseSumStep(xs, ys);
    r := ys;
  }

  /** `integral` for order `n <= 1`: `integralXY` over the indices. */
  method Integral(values: JsArray, n: int) returns (r: JsArray)
    requires |values.items| >= 2 && n <= 1
    modifies values
    ensures r == values && values.items == ReverseSums(Positions(|old(values.items)|), old(values.items))
  {
    var xs := new JsArray(Positions(|values.items|));
    r := IntegralXY(xs, values, n);
  }

  /** The tolerance `extremaXY` falls back on. */
  const DefaultTolerance: real := 0.1

  /** The options object of `extremaXY`; an absent field takes its default. */
  datatype Options = Options(yTolerance: Option<real>, minimizeIntervals: Option<bool>)

  /** What `Object.assign` makes of anything without own fields, a number included. */
  const NoOptions := Options(None, None)

  function ToleranceOf(o: Options): real
  {
    if o.yTolerance.Some? then o.yTolerance.value else DefaultTolerance
  }

  function MinimizeOf(o: Options): bool
  {
    if o.minimizeIntervals.Some? then o.minimizeIntervals.value else true
  }

  /** What `extremaXY` returns: pairs `[x(start), x(end)]`. */
  datatype XYExtrema<T> = XYExtrema(minima: seq<(T, T)>, maxima: seq<(T, T)>)

  /** What `extrema` returns: one key per interval. */
  datatype KeyExtrema<K> = KeyExtrema(minima: seq<K>, maxima: seq<K>)

  /** `pairs` labels each interval of `ivs`, which lies inside `xs`, with the x values at its ends. */
  ghost predicate Labelled<T>(xs: seq<T>, ivs: seq<Interval>, pairs: seq<(T, T)>)
  {
    |pairs| == |ivs| &&
    forall k :: 0 <= k < |ivs| ==>
      0 <= ivs[k].start <= ivs[k].end < |xs| && pairs[k] == (xs[ivs[k].start], xs[ivs[k].end])
  }

  /**
   * `ks` names each interval of `ivs` by the key at its centre
   * `floor((start + end) / 2)`, an index inside the interval.
   */
  ghost predicate Centred<K>(keys: seq<K>, ivs: seq<Interval>, ks: seq<K>)
  {
    |ks| == |ivs| &&
    forall k :: 0 <= k < |ivs| ==>
      var c := (ivs[k].start + ivs[k].end) / 2;
      0 <= ivs[k].start <= c <= ivs[k].end < |keys| && ks[k] == keys[c]
  }

  function Labels<T>(xs: seq<T>, ivs: seq<Interval>): (r: seq<(T, T)>)
    requires forall k :: 0 <= k < |ivs| ==> 0 <= ivs[k].start <= ivs[k].end < |xs|
    ensures Labelled(xs, ivs, r)
  {
    seq(|ivs|, k requires 0 <= k < |ivs| => (xs[ivs[k].start], xs[ivs[k].end]))
  }

  /** The indices `0, 1, ..., n - 1`, the x values `extrema` uses. */
  function Indices(n: nat): (r: seq<int>)
    ensures |r| == n && forall k :: 0 <= k < n ==> r[k] == k
  {
    seq(n, k => k)
  }

  /**
   * Samples 0 and 1 set the first run; if they are level, the seek loop runs
   * to the end of the leading plateau.  Unlike `Begin` of the newer scanner,
   * the index is left on the sample that ended the plateau.
   */
  method LegacyBegin(ys: seq<real>, tol: real, minimize: bool) returns (s: ScanState, i: nat, y: real)
    requires |ys| >= 3
    ensures (s, i) == Start(ys, tol, Legacy(minimize))
    ensures i <= |ys| && (i == |ys| ==> y == ys[|ys| - 1])
  {
    var lastSlope := Undefined;
    var lastMin := ys[0];
    var lastMax := ys[0];
    var pushes: seq<Emission> := [];
    y := ys[1];
    i := 2;
    if y < lastMax - tol {
      lastSlope := Falling;
      lastMin := y;
    } else if y > lastMin + tol {
      lastSlope := Rising;
      lastMax := y;
    } else {
      // seek to the end of the plateau
      while i < |ys|
        invariant 2 <= i <= |ys| && y == ys[i - 1]
        invariant PlateauExit(ys, tol, i) == PlateauExit(ys, tol, 2)
        invariant lastSlope == Undefined && lastMin == lastMax == ys[0] && pushes == []
      {
        y := ys[i];
        if y < lastMax - tol {
          pushes := pushes + [Emission(Maximum, if i > 1 && minimize then Interval(0, i - 1) else Interval(0, i))];
          assert PlateauExit(ys, tol, 2) == i;
          assert Start(ys, tol, Legacy(minimize)).0 == ScanState(Falling, y, ys[0], 0, pushes);
          lastSlope := Falling;
          lastMin := y;
          break;
        } else if y > lastMin + tol {
          pushes := pushes + [Emission(Minimum, if i > 1 && minimize then Interval(0, i - 1) else Interval(0, i))];
          assert PlateauExit(ys, tol, 2) == i;
          assert Start(ys, tol, Legacy(minimize)).0 == ScanState(Rising, ys[0], y, 0, pushes);
          lastSlope := Rising;
          lastMax := y;
          break;
        }
        i := i + 1;
      }
      assert lastSlope == Undefined ==> PlateauExit(ys, tol, 2) == |ys|;
    }
    s := ScanState(lastSlope, lastMin, lastMax, 0, pushes);
  }

  /** One sample of the main loop while rising: no plateaus are reported, and the maximum is minimized only on request. */
  method LegacyRising(ys: seq<real>, tol: real, minimize: bool, s: ScanState, i: nat, y: real) returns (t: ScanState)
    requires 1 <= i < |ys| && y == ys[i] && s.slope == Rising
    requires exists j :: 0 <= j < i - 1 && ys[j] < s.lastMax - tol
    ensures t == Step(ys, tol, Legacy(minimize), s, i)
  {
    RisingStepCases(ys, tol, Legacy(minimize), s, i);
    var lastMax := s.lastMax;
    var plateauLength := s.plateauLength;
    if y >= lastMax - tol {
      if y < lastMax + tol {
        plateauLength := plateauLength + 1;
      } else {
        plateauLength := 0;
      }
      lastMax := Max(lastMax, y);
      t := s.(lastMax := lastMax, plateauLength := plateauLength);
    } else {
      plateauLength := 0;
      // find the x interval of the last maximum
      var iStart := StartAbove(ys, i, lastMax - tol);
      var iv := if i - iStart >= 2 && minimize then Interval(iStart + 1, i - 1) else Interval(iStart, i);
      t := ScanState(Falling, y, lastMax, plateauLength, s.log + [Emission(Maximum, iv)]);
    }
  }

  /** The mirror image of `LegacyRising`. */
  method LegacyFalling(ys: seq<real>, tol: real, minimize: bool, s: ScanState, i: nat, y: real) returns (t: ScanState)
    requires 1 <= i < |ys| && y == ys[i] && s.slope == Falling
    requires exists j :: 0 <= j < i - 1 && ys[j] > s.lastMin + tol
    ensures t == Step(ys, tol, Legacy(minimize), s, i)
  {
    FallingStepCases(ys, tol, Legacy(minimize), s, i);
    var lastMin := s.lastMin;
    var plateauLength := s.plateauLength;
    if y <= lastMin + tol {
      if y > lastMin - tol {
        plateauLength := plateauLength + 1;
      } else {
        plateauLength := 0;
      }
      lastMin := Min(lastMin, y);
      t := s.(lastMin := lastMin, plateauLength := plateauLength);
    } else {
      plateauLength := 0;
      // find the x interval of the last minimum
      var iStart := StartBelow(ys, i, lastMin + tol);
      var iv := if i - iStart >= 2 && minimize then Interval(iStart + 1, i - 1) else Interval(iStart, i);
      t := ScanState(Rising, lastMin, y, plateauLength, s.log + [Emission(Minimum, iv)]);
    }
  }

  /** A plateau open at the last sample is reported only when it is longer than 2. */
  method LegacyFinish(ys: seq<real>, tol: real, minimize: bool, s: ScanState, y: real) returns (pushes: seq<Emission>)
    requires |ys| >= 1 && y == ys[|ys| - 1]
    ensures pushes == s.log + Trailing(ys, tol, Legacy(minimize), s)
  {
    var i := |ys| - 1;
    pushes := s.log;
    if s.plateauLength > 2 {
      if y > s.lastMax - tol {
        pushes := pushes + [Emission(Maximum, Interval(i - s.plateauLength, i))];
      } else {
        pushes := pushes + [Emission(Minimum, Interval(i - s.plateauLength, i))];
      }
    }
  }

  /** The main loop of `extremaXY`, which re-reads the sample that ended a leading plateau; returns the state and the last sample read. */
  method LegacyMainLoop(ys: seq<real>, tol: real, minimize: bool) returns (s: ScanState, y: real)
    requires |ys| >= 3 && tol > 0.0
    ensures s == MainPass(ys, tol, Legacy(minimize)) && y == ys[|ys| - 1]
  {
    var v := Legacy(minimize);
    var i;
    s, i, y := LegacyBegin(ys, tol, minimize);
    StartReady(ys, tol, v);
    while i < |ys|
      invariant i <= |ys| && (i == |ys| ==> y == ys[|ys| - 1])
      invariant Run(ys, tol, v, s, i) == MainPass(ys, tol, v)
      invariant if s.slope == Undefined then i >= |ys| else Good(ys, tol, v, s, i) || AtBreakout(ys, tol, v, s, i)
    {
      ghost var good := Good(ys, tol, v, s, i);
      if good {
        StepKeepsGood(ys, tol, v, s, i);
      } else {
        BreakoutStep(ys, tol, v, s, i);
      }
      y := ys[i];
      if s.slope == Rising {
        assert good ==> RisingOk(ys, tol, s, i);
        s := LegacyRising(ys, tol, minimize, s, i, y);
      } else {
        assert good ==> FallingOk(ys, tol, s, i);
        s := LegacyFalling(ys, tol, minimize, s, i, y);
      }
      i := i + 1;
    }
  }

  /**
   * The scan of `extremaXY`: the maxima and minima of the scanner
   * specification under the `Legacy` policy, each labelled with its x values.
   * Fewer than three samples give empty results.
   */
  method ExtremaXY<T>(xs: seq<T>, ys: seq<real>, options: Options) returns (r: XYExtrema<T>)
    requires |xs| == |ys| && ToleranceOf(options) > 0.0
    ensures var log := Scan(ys, ToleranceOf(options), Legacy(MinimizeOf(options)));
      Labelled(xs, OfKind(log, Minimum), r.minima) && Labelled(xs, OfKind(log, Maximum), r.maxima)
  {
    var tol := ToleranceOf(options);
    var minimize := MinimizeOf(options);
    if |xs| < 3 {
      return XYExtrema([], []);
    }
    var s, y := LegacyMainLoop(ys, tol, minimize);
    var pushes := LegacyFinish(ys, tol, minimize, s, y);
    assert pushes == Scan(ys, tol, Legacy(minimize));
    ScanInRange(ys, tol, Legacy(minimize));
    var minima, maxima := OfKind(pushes, Minimum), OfKind(pushes, Maximum);
    KindInRange(pushes, |ys| - 1, Minimum);
    KindInRange(pushes, |ys| - 1, Maximum);
    r := XYExtrema(Labels(xs, minima), Labels(xs, maxima));
  }

  /** The key at the centre `floor((a + b) / 2)` of each index pair `(a, b)`. */
  function CentreKeys<K>(keys: seq<K>, pairs: seq<(int, int)>): (r: seq<K>)
    requires forall k :: 0 <= k < |pairs| ==> 0 <= (pairs[k].0 + pairs[k].1) / 2 < |keys|
    ensures |r| == |pairs|
  {
    seq(|pairs|, k requires 0 <= k < |pairs| => keys[(pairs[k].0 + pairs[k].1) / 2])
  }

  /** The centre mapping of `extrema`, over the index pairs `extremaXY` reported for the intervals `lo` and `hi`. */
  method Centres<K>(keys: seq<K>, res: XYExtrema<int>, ghost lo: seq<Interval>, ghost hi: seq<Interval>) returns (r: KeyExtrema<K>)
    requires Labelled(Indices(|keys|), lo, res.minima) && Labelled(Indices(|keys|), hi, res.maxima)
    ensures Centred(keys, lo, r.minima) && Centred(keys, hi, r.maxima)
  {
    CentreInside(keys, lo, res.minima);
    CentreInside(keys, hi, res.maxima);
    r := KeyExtrema(CentreKeys(keys, res.minima), CentreKeys(keys, res.maxima));
  }

  /** Over the indices a labelled pair is the interval itself, and its centre lies inside it. */
  lemma CentreInside<K>(keys: seq<K>, ivs: seq<Interval>, pairs: seq<(int, int)>)
    requires Labelled(Indices(|keys|), ivs, pairs)
    ensures forall k :: 0 <= k < |pairs| ==> 0 <= (pairs[k].0 + pairs[k].1) / 2 < |keys|
    ensures Centred(keys, ivs, CentreKeys(keys, pairs))
  {
    forall k | 0 <= k < |pairs|
      ensures pairs[k] == (ivs[k].start, ivs[k].end)
      ensures ivs[k].start <= (ivs[k].start + ivs[k].end) / 2 <= ivs[k].end
    {
    }
  }

  /**
   * `extrema` as written: it hands its tolerance to `extremaXY` in the place of
   * the options object, where a number contributes no options, so the scan
   * always runs with the default tolerance 0.1 and `yTolerance` has no effect.
   * Each reported interval is named by the key at its centre.
   */
  method Extrema<K>(keys: seq<K>, ys: seq<real>, yTolerance: real) returns (r: KeyExtrema<K>)
    requires |keys| == |ys|
    ensures var log := Scan(ys, DefaultTolerance, Legacy(true));
      Centred(keys, OfKind(log, Minimum), r.minima) && Centred(keys, OfKind(log, Maximum), r.maxima)
  {
    var res := ExtremaXY(Indices(|keys|), ys, NoOptions);
    ghost var log := Scan(ys, DefaultTolerance, Legacy(true));
    r := Centres(keys, res, OfKind(log, Minimum), OfKind(log, Maximum));
  }

  /** `extrema` with its tolerance passed as the `yTolerance` option, as its documentation intends. */
  method ExtremaWithTolerance<K>(keys: seq<K>, ys: seq<real>, yTolerance: real) returns (r: KeyExtrema<K>)
    requires |keys| == |ys| && yTolerance > 0.0
    ensures var log := Scan(ys, yTolerance, Legacy(true));
      Centred(keys, OfKind(log, Minimum), r.minima) && Centred(keys, OfKind(log, Maximum), r.maxima)
  {
    var res := ExtremaXY(Indices(|keys|), ys, Options(Some(yTolerance), None));
    ghost var log := Scan(ys, yTolerance, Legacy(true));
    r := Centres(keys, res, OfKind(log, Minimum), OfKind(log, Maximum));
  }

  /**
   * The tolerance given to `extrema` is lost: on `[0, 1, 0]` the scan `Extrema`
   * runs reports a maximum at index 1, while with the requested tolerance 2
   * the rise of 1 is noise and nothing is reported.
   */
  lemma ToleranceIgnored()
    ensures OfKind(Scan([0.0, 1.0, 0.0], DefaultTolerance, Legacy(true)), Maximum) == [Interval(1, 1)]
    ensures Scan([0.0, 1.0, 0.0], 2.0, Legacy(true)) == []
  {
    var e := Emission(Maximum, Interval(1, 1));
    PeakAtDefaultTolerance();
    Push([], e);
    assert [] + [e] == [e];
    NoPeakAtTolerance2();
  }

  /** With tolerance 0.1, `[0, 1, 0]` rises, then turns at index 2: the maximum `[1, 1]`. */
  lemma PeakAtDefaultTolerance()
    ensures Scan([0.0, 1.0, 0.0], DefaultTolerance, Legacy(true)) == [Emission(Maximum, Interval(1, 1))]
  {
    var ys, v := [0.0, 1.0, 0.0], Legacy(true);
    var s := ScanState(Rising, 0.0, 1.0, 0, []);
    assert Start(ys, 0.1, v) == (s, 2);
    assert BackScanAbove(ys, 1, 0.9) == 0;
    assert Run(ys, 0.1, v, s, 2) == ScanState(Falling, 0.0, 1.0, 0, [Emission(Maximum, Interval(1, 1))]);
  }

  /** With tolerance 2, all of `[0, 1, 0]` is one leading plateau, and nothing is reported. */
  lemma NoPeakAtTolerance2()
    ensures Scan([0.0, 1.0, 0.0], 2.0, Legacy(true)) == []
  {
    var ys := [0.0, 1.0, 0.0];
    assert PlateauExit(ys, 2.0, 2) == 3;
  }

}
