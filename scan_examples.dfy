/**
 * Worked inputs for the scanner specification, in the shape of the
 * repository's own test scenarios (default tolerance 0.1).
 */
module ScanExamples {
  import opened Intervals
  import opened ExtremaScan
  import opened LocalExtrema

  /** A high plateau at the start is a maximum ending on its last sample. */
  lemma HighPlateauAtStart()
    ensures Scan([5.0, 5.0, 5.0, 5.0, 4.0, 3.0], 0.1, Current) == [Emission(Maximum, Interval(0, 3))]
  {
  }

  /** A high plateau after a rise is one maximum; the plateau inside it is not reported on its own. */
  lemma HighPlateauInMiddle()
    ensures Scan([3.0, 4.0, 5.0, 5.0, 5.0, 5.0, 4.0, 3.0], 0.1, Current) == [Emission(Maximum, Interval(2, 5))]
  {
  }

  /** A valley: the single minimum is the middle sample. */
  lemma MinimumInMiddle()
    ensures Scan([2.0, 1.0, 0.0, 1.0, 2.0], 0.1, Current) == [Emission(Minimum, Interval(2, 2))]
  {
  }

  /** A peak: the single maximum is the middle sample. */
  lemma MaximumInMiddle()
    ensures Scan([2.0, 3.0, 4.0, 3.0, 2.0], 0.1, Current) == [Emission(Maximum, Interval(2, 2))]
  {
  }

  const plateauEnds: seq<real> := [5.0, 5.0, 5.0, 5.0, 4.0, 3.0, 4.0, 5.0, 5.0, 5.0, 5.0]

  /** High plateaus at both ends are maxima; the valley between them is a minimum. */
  lemma PlateausAtBothEnds()
    ensures Scan(plateauEnds, 0.1, Current)
      == [Emission(Maximum, Interval(0, 3)), Emission(Minimum, Interval(5, 5)), Emission(Maximum, Interval(7, 10))]
  {
  }

  /**
   * A rising run with an inner plateau that breaks upwards before the turn:
   * the plateau `[1, 3]` is reported and then the maximum `[1, 4]` around it,
   * so reported intervals can nest.
   */
  lemma PlateauInsideMaximum()
    ensures Scan([0.0, 5.0, 5.0, 5.0, 6.0, 4.0], 1.0, Current)
      == [Emission(Plateau, Interval(1, 3)), Emission(Maximum, Interval(1, 4))]
  {
  }

  /**
   * The trailing plateau is classified against `lastMax` even when the run is
   * falling: a short dip after a peak ends in a second maximum, so the
   * reported turns need not alternate once the trailing interval is added.
   */
  lemma TrailingAfterFall()
    ensures Scan([0.0, 10.0, 8.9, 9.5], 1.0, Current)
      == [Emission(Maximum, Interval(1, 1)), Emission(Maximum, Interval(2, 3))]
  {
  }

  /**
   * A trailing plateau of three samples: `localExtrema` reports it, `extremaXY`
   * needs more than two repeats.  With four samples both report it.
   */
  lemma ShortTrailingPlateau()
    ensures Scan([3.0, 4.0, 5.0, 5.0, 5.0], 0.1, Current) == [Emission(Maximum, Interval(2, 4))]
    ensures Scan([3.0, 4.0, 5.0, 5.0, 5.0, 5.0], 0.1, Current) == [Emission(Maximum, Interval(2, 5))]
    ensures Scan([3.0, 4.0, 5.0, 5.0, 5.0], 0.1, Legacy(true)) == []
    ensures Scan([3.0, 4.0, 5.0, 5.0, 5.0, 5.0], 0.1, Legacy(true)) == [Emission(Maximum, Interval(2, 5))]
  {
  }

  /**
   * With a plateau nested in the maximum after it, the extrema are not
   * ordered and one nonextrema interval runs backwards, from 3 to 1.
   */
  lemma NonextremaRunBackwards()
    ensures Gaps(AllIntervals(Scan([0.0, 5.0, 5.0, 5.0, 6.0, 4.0], 1.0, Current)), 5)
      == [Interval(0, 1), Interval(3, 1), Interval(4, 5)]
  {
    PlateauInsideMaximum();
    var log := [Emission(Plateau, Interval(1, 3)), Emission(Maximum, Interval(1, 4))];
    var ext := [Interval(1, 3), Interval(1, 4)];
    assert AllIntervals(log) == ext by {
      Push([Emission(Plateau, Interval(1, 3))], Emission(Maximum, Interval(1, 4)));
      Push([], Emission(Plateau, Interval(1, 3)));
      assert [Emission(Plateau, Interval(1, 3))] + [Emission(Maximum, Interval(1, 4))] == log;
      assert [] + [Emission(Plateau, Interval(1, 3))] == [Emission(Plateau, Interval(1, 3))];
    }
    BackwardsGaps(ext);
  }

  /** The nonextrema of the two nested intervals, one of them backwards. */
  lemma BackwardsGaps(ext: seq<Interval>)
    requires ext == [Interval(1, 3), Interval(1, 4)]
    ensures Gaps(ext, 5) == [Interval(0, 1), Interval(3, 1), Interval(4, 5)]
  {
    assert Links(ext) == [Interval(3, 1)];
    assert Last(ext) == Interval(1, 4);
  }

  /**
   * Adjacent turns overlap with no plateau involved: the samples after the
   * peak stay inside both the band below `lastMax` and the band above the
   * following `lastMin`, so both scanners report the maximum `[1, 3]` and then
   * the minimum `[2, 4]`, and the link between them runs backwards.
   */
  lemma OverlappingTurns()
    ensures Scan(dip, 0.1, Current) == [Emission(Maximum, Interval(1, 3)), Emission(Minimum, Interval(2, 4))]
    ensures Scan(dip, 0.1, Legacy(true)) == [Emission(Maximum, Interval(1, 3)), Emission(Minimum, Interval(2, 4))]
    ensures Gaps(AllIntervals(Scan(dip, 0.1, Current)), |dip| - 1) == [Interval(0, 1), Interval(3, 2), Interval(4, 5)]
  {
    DipScan(Current);
    DipScan(Legacy(true));
    var max, min := Emission(Maximum, Interval(1, 3)), Emission(Minimum, Interval(2, 4));
    var ext := [Interval(1, 3), Interval(2, 4)];
    assert AllIntervals([max, min]) == ext by {
      Push([max], min);
      Push([], max);
      assert [max] + [min] == [max, min];
      assert [] + [max] == [max];
    }
    OverlapGaps(ext);
  }

  /** The scan of `dip`, step by step, for any minimizing policy. */
  lemma DipScan(v: Variant)
    requires v.minimizeIntervals
    ensures Scan(dip, 0.1, v) == [Emission(Maximum, Interval(1, 3)), Emission(Minimum, Interval(2, 4))]
  {
    var ys := dip;
    var up := ScanState(Rising, 0.0, 1.0, 0, []);
    assert Start(ys, 0.1, v) == (up, 2);
    assert Step(ys, 0.1, v, up, 2) == up.(plateauLength := 1);
    assert Step(ys, 0.1, v, up.(plateauLength := 1), 3) == up.(plateauLength := 2);
    assert BackScanAbove(ys, 3, 0.9) == 0;
    var down := ScanState(Falling, 0.85, 1.0, 0, [Emission(Maximum, Interval(1, 3))]);
    assert Step(ys, 0.1, v, up.(plateauLength := 2), 4) == down;
    assert BackScanBelow(ys, 4, 0.95) == 1;
    var last := ScanState(Rising, 0.85, 1.0, 0, down.log + [Emission(Minimum, Interval(2, 4))]);
    assert Step(ys, 0.1, v, down, 5) == last;
    assert MainPass(ys, 0.1, v) == last;
  }

  /** The nonextrema of the two overlapping turns, the middle one backwards. */
  lemma OverlapGaps(ext: seq<Interval>)
    requires ext == [Interval(1, 3), Interval(2, 4)]
    ensures Gaps(ext, 5) == [Interval(0, 1), Interval(3, 2), Interval(4, 5)]
  {
    assert Links(ext) == [Interval(3, 2)];
    assert Last(ext) == Interval(2, 4);
  }

  const dip := [0.0, 1.0, 0.95, 0.94, 0.85, 1.0]

  /** The older scanner on a valley: the same minimum. */
  lemma LegacyMinimumInMiddle()
    ensures Scan([5.0, 4.0, 3.0, 2.0, 1.0, 0.0, 1.0, 2.0, 3.0, 4.0, 5.0], 0.1, Legacy(true))
      == [Emission(Minimum, Interval(5, 5))]
  {
  }

  /**
   * The older scanner on a high plateau at the start: the maximum `[0, 4]`;
   * re-reading the sample that ended the plateau only opens a one-sample
   * plateau, which the next sample closes.
   */
  lemma LegacyHighPlateauAtStart()
    ensures Scan([10.0, 10.0, 10.0, 10.0, 10.0, 9.0, 8.0, 7.0, 6.0, 5.0], 0.1, Legacy(true))
      == [Emission(Maximum, Interval(0, 4))]
  {
  }

  const lowPlateauEnds: seq<real> :=
    [5.0, 5.0, 5.0, 5.0, 5.0, 6.0, 7.0, 8.0, 9.0, 10.0, 9.0, 8.0, 7.0, 6.0, 5.0, 5.0, 5.0, 5.0, 5.0]

  /** Low plateaus at both ends are minima, the peak between them a maximum. */
  lemma LegacyLowPlateausAtBothEnds()
    ensures Scan(lowPlateauEnds, 0.1, Legacy(true))
      == [Emission(Minimum, Interval(0, 4)), Emission(Maximum, Interval(9, 9)), Emission(Minimum, Interval(14, 18))]
  {
    var ys, v := lowPlateauEnds, Legacy(true);
    var lead := [Emission(Minimum, Interval(0, 4))];
    assert PlateauExit(ys, 0.1, 2) == 5;
    var s5 := ScanState(Rising, 5.0, 6.0, 0, lead);
    assert Start(ys, 0.1, v) == (s5, 5);
    assert Step(ys, 0.1, v, s5, 5) == s5.(plateauLength := 1);
    PeakThenLowPlateau(v, s5.(plateauLength := 1), 6);
  }

  /** The newer scanner agrees on the same samples. */
  lemma LowPlateausAtBothEnds()
    ensures Scan(lowPlateauEnds, 0.1, Current)
      == [Emission(Minimum, Interval(0, 4)), Emission(Maximum, Interval(9, 9)), Emission(Minimum, Interval(14, 18))]
  {
    var ys, v := lowPlateauEnds, Current;
    var lead := [Emission(Minimum, Interval(0, 4))];
    assert PlateauExit(ys, 0.1, 2) == 5;
    var s6 := ScanState(Rising, 5.0, 6.0, 0, lead);
    assert Start(ys, 0.1, v) == (s6, 6);
    PeakThenLowPlateau(v, s6, 6);
  }

  /** The common tail of both scans of `lowPlateauEnds`: from sample 6 on, a peak at 9 and a trailing low plateau. */
  lemma PeakThenLowPlateau(v: Variant, s: ScanState, i: nat)
    requires i == 6 && s.slope == Rising && s.lastMin == 5.0 && s.lastMax == 6.0 && s.plateauLength <= 1
    requires v.reportsPlateaus ==> s.plateauLength == 0
    requires s.log == [Emission(Minimum, Interval(0, 4))] && v.minimizeIntervals && v.trailingAbove <= 3
    ensures var t := Run(lowPlateauEnds, 0.1, v, s, i);
      t.log + Trailing(lowPlateauEnds, 0.1, v, t)
      == [Emission(Minimum, Interval(0, 4)), Emission(Maximum, Interval(9, 9)), Emission(Minimum, Interval(14, 18))]
  {
    var down := ScanState(Falling, 9.0, 10.0, 0, s.log + [Emission(Maximum, Interval(9, 9))]);
    PeakAtNine(v, s, down);
    LowPlateauAtEnd(v, down);
  }

  /** Samples 6 to 10 of `lowPlateauEnds`: the rise to 10 and the turn below it, reported as the maximum `[9, 9]`. */
  lemma PeakAtNine(v: Variant, s: ScanState, down: ScanState)
    requires s.slope == Rising && s.lastMin == 5.0 && s.lastMax == 6.0 && s.plateauLength <= 1
    requires v.reportsPlateaus ==> s.plateauLength == 0
    requires v.minimizeIntervals
    requires down == ScanState(Falling, 9.0, 10.0, 0, s.log + [Emission(Maximum, Interval(9, 9))])
    ensures Run(lowPlateauEnds, 0.1, v, s, 6) == Run(lowPlateauEnds, 0.1, v, down, 11)
  {
    var ys := lowPlateauEnds;
    var up := s.(plateauLength := 0, lastMax := 7.0);
    assert Step(ys, 0.1, v, s, 6) == up;
    assert Step(ys, 0.1, v, up, 7) == up.(lastMax := 8.0);
    assert Step(ys, 0.1, v, up.(lastMax := 8.0), 8) == up.(lastMax := 9.0);
    assert Step(ys, 0.1, v, up.(lastMax := 9.0), 9) == up.(lastMax := 10.0);
    assert BackScanAbove(ys, 9, 9.9) == 8;
    assert Step(ys, 0.1, v, up.(lastMax := 10.0), 10) == down;
  }

  /** Samples 11 to 18 of `lowPlateauEnds`: the fall to 5 and the low plateau `[14, 18]` reported at the end. */
  lemma LowPlateauAtEnd(v: Variant, down: ScanState)
    requires down.slope == Falling && down.lastMin == 9.0 && down.lastMax == 10.0 && down.plateauLength == 0
    requires v.trailingAbove <= 3
    ensures var t := Run(lowPlateauEnds, 0.1, v, down, 11);
      t.log + Trailing(lowPlateauEnds, 0.1, v, t) == down.log + [Emission(Minimum, Interval(14, 18))]
  {
    var ys := lowPlateauEnds;
    assert Step(ys, 0.1, v, down, 11) == down.(lastMin := 8.0);
    assert Step(ys, 0.1, v, down.(lastMin := 8.0), 12) == down.(lastMin := 7.0);
    assert Step(ys, 0.1, v, down.(lastMin := 7.0), 13) == down.(lastMin := 6.0);
    assert Step(ys, 0.1, v, down.(lastMin := 6.0), 14) == down.(lastMin := 5.0);
    var low := down.(lastMin := 5.0);
    assert Step(ys, 0.1, v, low, 15) == low.(plateauLength := 1);
    assert Step(ys, 0.1, v, low.(plateauLength := 1), 16) == low.(plateauLength := 2);
    assert Step(ys, 0.1, v, low.(plateauLength := 2), 17) == low.(plateauLength := 3);
    assert Step(ys, 0.1, v, low.(plateauLength := 3), 18) == low.(plateauLength := 4);
    assert Run(ys, 0.1, v, down, 11) == low.(plateauLength := 4);
  }

  /** Without minimizing, a turn reports the samples on both sides of it. */
  lemma LegacyUnminimized()
    ensures Scan([2.0, 1.0, 0.0, 1.0, 2.0], 0.1, Legacy(false)) == [Emission(Minimum, Interval(1, 3))]
  {
  }
}
