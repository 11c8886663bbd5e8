/**
 * The tolerance-based local-extrema scan as a state machine over the samples.
 *
 * One definition serves both scanners of the repository: `localExtrema` in
 * src/local-extrema.js and the older `extremaXY` in diff.js.  They run the same
 * rising/falling machine and differ in four policies, gathered in `Variant`.
 * The imperative methods in modules LocalExtrema and DiffJs are proved to
 * compute exactly `Scan(ys, tol, v)` for their variant; the lemmas here state
 * what that scan guarantees.
 */
module ExtremaScan {
  import opened Intervals

  /** The policies in which the two scanners differ. */
  datatype Variant = Variant(
    minimizeIntervals: bool, // report [iStart + 1, i - 1] rather than [iStart, i]
    reportsPlateaus: bool,   // a plateau broken in the run's own direction goes to `plateaus`
    rescansBreakout: bool,   // no i++ after the leading-plateau loop: its breakout sample is scanned again
    trailingAbove: nat)      // a trailing plateau is reported when plateauLength > trailingAbove

  /** src/local-extrema.js: tight intervals, plateaus, trailing plateau when plateauLength > 0. */
  const Current := Variant(true, true, false, 0)

  /** extremaXY in diff.js: no plateaus, trailing plateau only when plateauLength > 2. */
  function Legacy(minimizeIntervals: bool): Variant
  {
    Variant(minimizeIntervals, false, true, 2)
  }

  /** `lastSlope`: unset until positions 0 and 1 (or a leading plateau) decide it. */
  datatype Slope = Undefined | Rising | Falling

  /** The scanner's mutable locals, plus the log of intervals pushed so far. */
  datatype ScanState = ScanState(slope: Slope, lastMin: real, lastMax: real, plateauLength: nat, log: seq<Emission>)

  function Max(a: real, b: real): real { if a >= b then a else b }

  function Min(a: real, b: real): real { if a <= b then a else b }

  /** The index at which the seek loop over a leading plateau stops: the first sample from `i` on outside `[ys[0] - tol, ys[0] + tol]`, or `|ys|`. */
  function PlateauExit(ys: seq<real>, tol: real, i: nat): (b: nat)
    requires 1 <= |ys| && i <= |ys|
    ensures i <= b <= |ys|
    decreases |ys| - i
  {
    if i == |ys| then i
    else if ys[i] < ys[0] - tol || ys[i] > ys[0] + tol then i
    else PlateauExit(ys, tol, i + 1)
  }

  /** The interval reported for a leading plateau left at index `b`. */
  function LeadingInterval(v: Variant, b: int): Interval
  {
    if b > 1 && v.minimizeIntervals then Interval(0, b - 1) else Interval(0, b)
  }

  /**
   * The state after positions 0 and 1 (and after a leading plateau, if there is
   * one), with the index at which the main loop starts.
   */
  function Start(ys: seq<real>, tol: real, v: Variant): (ScanState, nat)
    requires |ys| >= 3
  {
    var y0, y1 := ys[0], ys[1];
    if y1 < y0 - tol then (ScanState(Falling, y1, y0, 0, []), 2)
    else if y1 > y0 + tol then (ScanState(Rising, y0, y1, 0, []), 2)
    else
      var b := PlateauExit(ys, tol, 2);
      var next := if v.rescansBreakout then b else b + 1;
      if b == |ys| then (ScanState(Undefined, y0, y0, 0, []), next)
      else if ys[b] < y0 - tol then (ScanState(Falling, ys[b], y0, 0, [Emission(Maximum, LeadingInterval(v, b))]), next)
      else (ScanState(Rising, y0, ys[b], 0, [Emission(Minimum, LeadingInterval(v, b))]), next)
  }

  /**
   * Where `while (y(iStart) >= bound) iStart--` stops when started at `j`.
   * Index -1 stands for the read in front of the array, which yields
   * `undefined` and compares false; `BackScanAboveStops` shows the scan never
   * gets there.
   */
  function BackScanAbove(ys: seq<real>, j: int, bound: real): int
    requires -1 <= j < |ys|
    decreases j + 1
  {
    if j < 0 then j else if ys[j] >= bound then BackScanAbove(ys, j - 1, bound) else j
  }

  /** Where `while (y(iStart) <= bound) iStart--` stops when started at `j`. */
  function BackScanBelow(ys: seq<real>, j: int, bound: real): int
    requires -1 <= j < |ys|
    decreases j + 1
  {
    if j < 0 then j else if ys[j] <= bound then BackScanBelow(ys, j - 1, bound) else j
  }

  /** The interval reported when a run reverses at `i` and the back-scan stopped at `iStart`. */
  function ReversalInterval(v: Variant, iStart: int, i: int): Interval
  {
    if i - iStart >= 2 && v.minimizeIntervals then Interval(iStart + 1, i - 1) else Interval(iStart, i)
  }

  /** The log after a run in the tolerance band is broken in the run's own direction at `i`. */
  function PlateauLog(v: Variant, s: ScanState, i: int): seq<Emission>
  {
    if v.reportsPlateaus && s.plateauLength > 0
    then s.log + [Emission(Plateau, Interval(i - s.plateauLength - 1, i - 1))]
    else s.log
  }

  /** One iteration of the main loop, at index `i`. */
  function Step(ys: seq<real>, tol: real, v: Variant, s: ScanState, i: nat): ScanState
    requires i < |ys|
  {
    match s.slope
    case Rising => RisingStep(ys, tol, v, s, i)
    case Falling => FallingStep(ys, tol, v, s, i)
    case Undefined => s
  }

  /** The iteration on a rising run: go on rising (counting samples in the band under `lastMax` as a plateau), or turn at a maximum. */
  function RisingStep(ys: seq<real>, tol: real, v: Variant, s: ScanState, i: nat): ScanState
    requires i < |ys|
  {
    var y := ys[i];
    if y >= s.lastMax - tol then
      if y < s.lastMax + tol then s.(plateauLength := s.plateauLength + 1, lastMax := Max(s.lastMax, y))
      else s.(log := PlateauLog(v, s, i), plateauLength := 0, lastMax := Max(s.lastMax, y))
    else
      var iStart := BackScanAbove(ys, i - 1, s.lastMax - tol);
      ScanState(Falling, y, s.lastMax, 0, s.log + [Emission(Maximum, ReversalInterval(v, iStart, i))])
  }

  /** The iteration on a falling run: the mirror image of `RisingStep`. */
  function FallingStep(ys: seq<real>, tol: real, v: Variant, s: ScanState, i: nat): ScanState
    requires i < |ys|
  {
    var y := ys[i];
    if y <= s.lastMin + tol then
      if y > s.lastMin - tol then s.(plateauLength := s.plateauLength + 1, lastMin := Min(s.lastMin, y))
      else s.(log := PlateauLog(v, s, i), plateauLength := 0, lastMin := Min(s.lastMin, y))
    else
      var iStart := BackScanBelow(ys, i - 1, s.lastMin + tol);
      ScanState(Rising, s.lastMin, y, 0, s.log + [Emission(Minimum, ReversalInterval(v, iStart, i))])
  }

  /** The main loop from index `i` to the end. */
  function Run(ys: seq<real>, tol: real, v: Variant, s: ScanState, i: nat): ScanState
    decreases |ys| - i
  {
    if i >= |ys| then s else Run(ys, tol, v, Step(ys, tol, v, s, i), i + 1)
  }

  /** The state when the main loop is done. */
  function MainPass(ys: seq<real>, tol: real, v: Variant): ScanState
    requires |ys| >= 3
  {
    var (s0, i0) := Start(ys, tol, v);
    Run(ys, tol, v, s0, i0)
  }

  /** The emission for a plateau still open at the last sample, if it is reported. */
  function Trailing(ys: seq<real>, tol: real, v: Variant, s: ScanState): seq<Emission>
    requires |ys| >= 1
  {
    var last := |ys| - 1;
    if s.plateauLength > v.trailingAbove then
      [Emission(if ys[last] > s.lastMax - tol then Maximum else Minimum, Interval(last - s.plateauLength, last))]
    else []
  }

  /** Everything a scan pushes, in order. Fewer than three samples push nothing. */
  function Scan(ys: seq<real>, tol: real, v: Variant): seq<Emission>
  {
    if |ys| < 3 then []
    else
      var s := MainPass(ys, tol, v);
      s.log + Trailing(ys, tol, v, s)
  }

  // ---------------------------------------------------------------------------
  // The invariant of the main loop
  // ---------------------------------------------------------------------------

  /** Every logged interval lies within `[0, hi]` and runs forwards. */
  ghost predicate InRange(log: seq<Emission>, hi: int)
  {
    forall k :: 0 <= k < |log| ==> 0 <= log[k].iv.start <= log[k].iv.end <= hi
  }

  /**
   * Maxima and minima alternate, and the last of them is the one the current
   * run started from: a rising run starts at a minimum, a falling one at a maximum.
   */
  ghost predicate Alternating(log: seq<Emission>, slope: Slope)
  {
    var t := Turns(log);
    (forall k :: 0 <= k < |t| - 1 ==> t[k].kind != t[k + 1].kind) &&
    (|t| > 0 ==> Last(t).kind == (if slope == Rising then Minimum else Maximum))
  }

  /**
   * What holds before the main loop reads index `i`.  While rising, the
   * previous sample is in the band under `lastMax`, some earlier sample lies
   * below it (so the back-scan stops at an index >= 0), and `lastMax` is a
   * sample value; falling is the mirror image.
   */
  ghost predicate Good(ys: seq<real>, tol: real, v: Variant, s: ScanState, i: nat)
  {
    tol > 0.0 && 2 <= i <= |ys| && s.plateauLength <= i - 2 &&
    InRange(s.log, i - 1) && Alternating(s.log, s.slope) &&
    match s.slope
    case Rising => RisingOk(ys, tol, s, i)
    case Falling => FallingOk(ys, tol, s, i)
    case Undefined => false
  }

  /** The rising part of `Good`. */
  ghost predicate RisingOk(ys: seq<real>, tol: real, s: ScanState, i: nat)
    requires 1 <= i <= |ys|
  {
    ys[i - 1] >= s.lastMax - tol &&
    (exists j :: 0 <= j < i - 1 && ys[j] < s.lastMax - tol) &&
    (exists k :: 0 <= k < i && ys[k] == s.lastMax)
  }

  /** The falling part of `Good`. */
  ghost predicate FallingOk(ys: seq<real>, tol: real, s: ScanState, i: nat)
    requires 1 <= i <= |ys|
  {
    ys[i - 1] <= s.lastMin + tol &&
    (exists j :: 0 <= j < i - 1 && ys[j] > s.lastMin + tol) &&
    (exists k :: 0 <= k < i && ys[k] == s.lastMin)
  }

  /** The legacy scanner's state when it re-reads the sample that ended a leading plateau. */
  ghost predicate AtBreakout(ys: seq<real>, tol: real, v: Variant, s: ScanState, i: nat)
  {
    tol > 0.0 && 2 <= i < |ys| && s.plateauLength == 0 &&
    InRange(s.log, i) && Alternating(s.log, s.slope) &&
    match s.slope
    case Rising => s.lastMax == ys[i] && ys[0] < ys[i] - tol
    case Falling => s.lastMin == ys[i] && ys[0] > ys[i] + tol
    case Undefined => false
  }

  /** The seek loop stops at the first sample outside the band around `ys[0]`. */
  lemma {:induction false} PlateauExitIsFirst(ys: seq<real>, tol: real, i: nat)
    requires 1 <= |ys| && i <= |ys|
    ensures var b := PlateauExit(ys, tol, i);
      (forall m :: i <= m < b ==> ys[0] - tol <= ys[m] <= ys[0] + tol) &&
      (b < |ys| ==> ys[b] < ys[0] - tol || ys[b] > ys[0] + tol)
    decreases |ys| - i
  {
    if i < |ys| && !(ys[i] < ys[0] - tol || ys[i] > ys[0] + tol) {
      PlateauExitIsFirst(ys, tol, i + 1);
    }
  }

  /**
   * A back-scan over samples `>= bound` from `j` stops at the nearest sample
   * below `bound`, never passing a known one at `w`.
   */
  lemma {:induction false} BackScanAboveStops(ys: seq<real>, j: int, bound: real, w: int)
    requires 0 <= w <= j < |ys| && ys[w] < bound
    ensures var r := BackScanAbove(ys, j, bound);
      w <= r <= j && ys[r] < bound && forall m :: r < m <= j ==> ys[m] >= bound
    decreases j
  {
    if ys[j] >= bound {
      BackScanAboveStops(ys, j - 1, bound, w);
    }
  }

  /** The mirror image of `BackScanAboveStops`. */
  lemma {:induction false} BackScanBelowStops(ys: seq<real>, j: int, bound: real, w: int)
    requires 0 <= w <= j < |ys| && ys[w] > bound
    ensures var r := BackScanBelow(ys, j, bound);
      w <= r <= j && ys[r] > bound && forall m :: r < m <= j ==> ys[m] <= bound
    decreases j
  {
    if ys[j] <= bound {
      BackScanBelowStops(ys, j - 1, bound, w);
    }
  }

  /** The state the start of the scan hands to the main loop. */
  lemma StartReady(ys: seq<real>, tol: real, v: Variant)
    requires tol > 0.0 && |ys| >= 3
    ensures var (s0, i0) := Start(ys, tol, v);
      if s0.slope == Undefined then i0 >= |ys| && s0.log == [] && s0.plateauLength == 0
      else i0 <= |ys| && (Good(ys, tol, v, s0, i0) || AtBreakout(ys, tol, v, s0, i0)) &&
           (!v.rescansBreakout ==> Good(ys, tol, v, s0, i0))
  {
    var (s0, i0) := Start(ys, tol, v);
    if ys[1] < ys[0] - tol {
      FallingGood(ys, tol, v, s0, 2, 0, 1);
    } else if ys[1] > ys[0] + tol {
      RisingGood(ys, tol, v, s0, 2, 0, 1);
    } else {
      LeadingPlateauReady(ys, tol, v);
    }
  }

  /** The state handed to the main loop after a leading plateau. */
  lemma LeadingPlateauReady(ys: seq<real>, tol: real, v: Variant)
    requires tol > 0.0 && |ys| >= 3 && ys[0] - tol <= ys[1] <= ys[0] + tol
    ensures var (s0, i0) := Start(ys, tol, v);
      if s0.slope == Undefined then i0 >= |ys| && s0.log == [] && s0.plateauLength == 0
      else i0 <= |ys| && (Good(ys, tol, v, s0, i0) || AtBreakout(ys, tol, v, s0, i0)) &&
           (!v.rescansBreakout ==> Good(ys, tol, v, s0, i0))
  {
    var b := PlateauExit(ys, tol, 2);
    PlateauExitIsFirst(ys, tol, 2);
    if b < |ys| {
      var iv := LeadingInterval(v, b);
      var s0 := if ys[b] < ys[0] - tol then ScanState(Falling, ys[b], ys[0], 0, [Emission(Maximum, iv)])
        else ScanState(Rising, ys[0], ys[b], 0, [Emission(Minimum, iv)]);
      assert Start(ys, tol, v) == (s0, if v.rescansBreakout then b else b + 1);
      LeadingExitReady(ys, tol, v, b, s0);
    }
  }

  /** Leaving a leading plateau at `b`: ready to re-read `b`, and ready to read `b + 1`. */
  lemma LeadingExitReady(ys: seq<real>, tol: real, v: Variant, b: nat, s0: ScanState)
    requires tol > 0.0 && 2 <= b < |ys| && ys[0] - tol <= ys[b - 1] <= ys[0] + tol
    requires ys[b] < ys[0] - tol || ys[b] > ys[0] + tol
    requires s0 == if ys[b] < ys[0] - tol then ScanState(Falling, ys[b], ys[0], 0, [Emission(Maximum, LeadingInterval(v, b))])
      else ScanState(Rising, ys[0], ys[b], 0, [Emission(Minimum, LeadingInterval(v, b))])
    ensures AtBreakout(ys, tol, v, s0, b)
    ensures Good(ys, tol, v, s0, b + 1)
  {
    FirstTurn(s0.log[0], b);
    assert [s0.log[0]] == s0.log;
    if s0.slope == Falling {
      FallingGood(ys, tol, v, s0, b + 1, 0, b);
    } else {
      RisingGood(ys, tol, v, s0, b + 1, 0, b);
    }
  }

  /** A log of one turn alternates trivially and sets the direction of the run after it. */
  lemma FirstTurn(e: Emission, b: int)
    requires e.kind != Plateau && 0 <= e.iv.start <= e.iv.end <= b
    ensures InRange([e], b)
    ensures Alternating([e], if e.kind == Maximum then Falling else Rising)
  {
    Push([], e);
    assert [] + [e] == [e];
  }

  /** Appending a turn of the kind the current run calls for keeps maxima and minima alternating. */
  lemma TurnKeepsAlternating(log: seq<Emission>, slope: Slope, e: Emission, next: Slope)
    requires Alternating(log, slope) && slope != Undefined
    requires e.kind == (if slope == Rising then Maximum else Minimum)
    requires next == (if slope == Rising then Falling else Rising)
    ensures Alternating(log + [e], next)
  {
    Push(log, e);
  }

  /** A plateau emission neither breaks alternation nor leaves the range. */
  lemma PlateauLogKeeps(ys: seq<real>, tol: real, v: Variant, s: ScanState, i: nat)
    requires Good(ys, tol, v, s, i) && i < |ys|
    ensures InRange(PlateauLog(v, s, i), i) && Alternating(PlateauLog(v, s, i), s.slope)
  {
    if v.reportsPlateaus && s.plateauLength > 0 {
      Push(s.log, Emission(Plateau, Interval(i - s.plateauLength - 1, i - 1)));
    }
  }

  /** A rising run that goes on (inside or above the band) keeps the invariant. */
  lemma RisingGoesOn(ys: seq<real>, tol: real, v: Variant, s: ScanState, i: nat)
    requires Good(ys, tol, v, s, i) && i < |ys| && s.slope == Rising && ys[i] >= s.lastMax - tol
    ensures Good(ys, tol, v, Step(ys, tol, v, s, i), i + 1)
  {
    var t := Step(ys, tol, v, s, i);
    var j, k := RisingWitnesses(ys, tol, v, s, i);
    RisingStepCases(ys, tol, v, s, i);
    assert t == RisingStep(ys, tol, v, s, i);
    if ys[i] < s.lastMax + tol {
      assert t.log == s.log && t.plateauLength == s.plateauLength + 1;
      if ys[i] >= s.lastMax { RisingGood(ys, tol, v, t, i + 1, j, i); } else { RisingGood(ys, tol, v, t, i + 1, j, k); }
    } else {
      PlateauLogKeeps(ys, tol, v, s, i);
      assert t.log == PlateauLog(v, s, i) && t.plateauLength == 0 && t.lastMax == ys[i];
      RisingGood(ys, tol, v, t, i + 1, j, i);
    }
  }

  /** A logged interval inside the range stays inside after one more push inside it. */
  lemma InRangePush(log: seq<Emission>, e: Emission, hi: int, hi': int)
    requires InRange(log, hi) && hi <= hi' && 0 <= e.iv.start <= e.iv.end <= hi'
    ensures InRange(log + [e], hi')
  {
  }

  /** `Good` for a falling state, from its parts. */
  lemma FallingGood(ys: seq<real>, tol: real, v: Variant, t: ScanState, n: nat, j: nat, k: nat)
    requires tol > 0.0 && 2 <= n <= |ys| && t.slope == Falling && t.plateauLength <= n - 2
    requires InRange(t.log, n - 1) && Alternating(t.log, Falling)
    requires ys[n - 1] <= t.lastMin + tol
    requires j < n - 1 && ys[j] > t.lastMin + tol && k < n && ys[k] == t.lastMin
    ensures Good(ys, tol, v, t, n)
  {
  }

  /** `Good` for a rising state, from its parts. */
  lemma RisingGood(ys: seq<real>, tol: real, v: Variant, t: ScanState, n: nat, j: nat, k: nat)
    requires tol > 0.0 && 2 <= n <= |ys| && t.slope == Rising && t.plateauLength <= n - 2
    requires InRange(t.log, n - 1) && Alternating(t.log, Rising)
    requires ys[n - 1] >= t.lastMax - tol
    requires j < n - 1 && ys[j] < t.lastMax - tol && k < n && ys[k] == t.lastMax
    ensures Good(ys, tol, v, t, n)
  {
  }

  /** What a reversal does to the state. */
  lemma TurnStep(ys: seq<real>, tol: real, v: Variant, s: ScanState, i: nat)
    requires i < |ys|
    ensures s.slope == Rising && ys[i] < s.lastMax - tol ==>
      Step(ys, tol, v, s, i) == ScanState(Falling, ys[i], s.lastMax, 0,
        s.log + [Emission(Maximum, ReversalInterval(v, BackScanAbove(ys, i - 1, s.lastMax - tol), i))])
    ensures s.slope == Falling && ys[i] > s.lastMin + tol ==>
      Step(ys, tol, v, s, i) == ScanState(Rising, s.lastMin, ys[i], 0,
        s.log + [Emission(Minimum, ReversalInterval(v, BackScanBelow(ys, i - 1, s.lastMin + tol), i))])
  {
  }

  /** The three outcomes of a rising step. */
  lemma RisingStepCases(ys: seq<real>, tol: real, v: Variant, s: ScanState, i: nat)
    requires i < |ys|
    ensures var y := ys[i]; var t := RisingStep(ys, tol, v, s, i);
      (y >= s.lastMax - tol && y < s.lastMax + tol ==>
        t == s.(plateauLength := s.plateauLength + 1, lastMax := Max(s.lastMax, y))) &&
      (y >= s.lastMax - tol && y >= s.lastMax + tol ==>
        t == s.(log := PlateauLog(v, s, i), plateauLength := 0, lastMax := Max(s.lastMax, y))) &&
      (y < s.lastMax - tol ==>
        t == ScanState(Falling, y, s.lastMax, 0, s.log + [Emission(Maximum, ReversalInterval(v, BackScanAbove(ys, i - 1, s.lastMax - tol), i))]))
  {
  }

  /** The three outcomes of a falling step. */
  lemma FallingStepCases(ys: seq<real>, tol: real, v: Variant, s: ScanState, i: nat)
    requires i < |ys|
    ensures var y := ys[i]; var t := FallingStep(ys, tol, v, s, i);
      (y <= s.lastMin + tol && y > s.lastMin - tol ==>
        t == s.(plateauLength := s.plateauLength + 1, lastMin := Min(s.lastMin, y))) &&
      (y <= s.lastMin + tol && y <= s.lastMin - tol ==>
        t == s.(log := PlateauLog(v, s, i), plateauLength := 0, lastMin := Min(s.lastMin, y))) &&
      (y > s.lastMin + tol ==>
        t == ScanState(Rising, s.lastMin, y, 0, s.log + [Emission(Minimum, ReversalInterval(v, BackScanBelow(ys, i - 1, s.lastMin + tol), i))]))
  {
  }

  /** A rising run that drops below the band turns into a falling one and keeps the invariant. */
  lemma RisingTurns(ys: seq<real>, tol: real, v: Variant, s: ScanState, i: nat)
    requires Good(ys, tol, v, s, i) && i < |ys| && s.slope == Rising && ys[i] < s.lastMax - tol
    ensures Good(ys, tol, v, Step(ys, tol, v, s, i), i + 1)
  {
    var t := Step(ys, tol, v, s, i);
    TurnedFalling(ys, tol, v, s, i);
    var _, k := RisingWitnesses(ys, tol, v, s, i);
    FallingGood(ys, tol, v, t, i + 1, k, i);
  }

  /** A rising run's witnesses: a sample below the band (so the back-scan stops) and where `lastMax` was read. */
  lemma RisingWitnesses(ys: seq<real>, tol: real, v: Variant, s: ScanState, i: nat) returns (j: nat, k: nat)
    requires Good(ys, tol, v, s, i) && s.slope == Rising
    ensures j < i - 1 && ys[j] < s.lastMax - tol && k < i && ys[k] == s.lastMax
  {
    assert RisingOk(ys, tol, s, i);
    j :| 0 <= j < i - 1 && ys[j] < s.lastMax - tol;
    k :| 0 <= k < i && ys[k] == s.lastMax;
  }

  /** The mirror image of `RisingWitnesses`. */
  lemma FallingWitnesses(ys: seq<real>, tol: real, v: Variant, s: ScanState, i: nat) returns (j: nat, k: nat)
    requires Good(ys, tol, v, s, i) && s.slope == Falling
    ensures j < i - 1 && ys[j] > s.lastMin + tol && k < i && ys[k] == s.lastMin
  {
    assert FallingOk(ys, tol, s, i);
    j :| 0 <= j < i - 1 && ys[j] > s.lastMin + tol;
    k :| 0 <= k < i && ys[k] == s.lastMin;
  }

  /** The state right after a turn at a maximum: falling from `ys[i]`, the maximum logged within range and alternation kept. */
  lemma TurnedFalling(ys: seq<real>, tol: real, v: Variant, s: ScanState, i: nat)
    requires Good(ys, tol, v, s, i) && i < |ys| && s.slope == Rising && ys[i] < s.lastMax - tol
    ensures var t := Step(ys, tol, v, s, i);
      t.slope == Falling && t.lastMin == ys[i] && t.lastMax == s.lastMax && t.plateauLength == 0 &&
      InRange(t.log, i) && Alternating(t.log, Falling)
  {
    assert RisingOk(ys, tol, s, i);
    var j :| 0 <= j < i - 1 && ys[j] < s.lastMax - tol;
    var r := BackScanAbove(ys, i - 1, s.lastMax - tol);
    BackScanAboveStops(ys, i - 1, s.lastMax - tol, j);
    var e := Emission(Maximum, ReversalInterval(v, r, i));
    TurnKeepsAlternating(s.log, Rising, e, Falling);
    InRangePush(s.log, e, i - 1, i);
    TurnStep(ys, tol, v, s, i);
  }

  /** The mirror image of `RisingTurns`. */
  lemma FallingTurns(ys: seq<real>, tol: real, v: Variant, s: ScanState, i: nat)
    requires Good(ys, tol, v, s, i) && i < |ys| && s.slope == Falling && ys[i] > s.lastMin + tol
    ensures Good(ys, tol, v, Step(ys, tol, v, s, i), i + 1)
  {
    var t := Step(ys, tol, v, s, i);
    TurnedRising(ys, tol, v, s, i);
    var _, k := FallingWitnesses(ys, tol, v, s, i);
    RisingGood(ys, tol, v, t, i + 1, k, i);
  }

  /** The mirror image of `TurnedFalling`. */
  lemma TurnedRising(ys: seq<real>, tol: real, v: Variant, s: ScanState, i: nat)
    requires Good(ys, tol, v, s, i) && i < |ys| && s.slope == Falling && ys[i] > s.lastMin + tol
    ensures var t := Step(ys, tol, v, s, i);
      t.slope == Rising && t.lastMax == ys[i] && t.lastMin == s.lastMin && t.plateauLength == 0 &&
      InRange(t.log, i) && Alternating(t.log, Rising)
  {
    assert FallingOk(ys, tol, s, i);
    var j :| 0 <= j < i - 1 && ys[j] > s.lastMin + tol;
    var r := BackScanBelow(ys, i - 1, s.lastMin + tol);
    BackScanBelowStops(ys, i - 1, s.lastMin + tol, j);
    var e := Emission(Minimum, ReversalInterval(v, r, i));
    TurnKeepsAlternating(s.log, Falling, e, Rising);
    InRangePush(s.log, e, i - 1, i);
    TurnStep(ys, tol, v, s, i);
  }

  /** The mirror image of `RisingGoesOn`. */
  lemma FallingGoesOn(ys: seq<real>, tol: real, v: Variant, s: ScanState, i: nat)
    requires Good(ys, tol, v, s, i) && i < |ys| && s.slope == Falling && ys[i] <= s.lastMin + tol
    ensures Good(ys, tol, v, Step(ys, tol, v, s, i), i + 1)
  {
    var t := Step(ys, tol, v, s, i);
    var j, k := FallingWitnesses(ys, tol, v, s, i);
    FallingStepCases(ys, tol, v, s, i);
    assert t == FallingStep(ys, tol, v, s, i);
    if ys[i] > s.lastMin - tol {
      assert t.log == s.log && t.plateauLength == s.plateauLength + 1;
      if ys[i] <= s.lastMin { FallingGood(ys, tol, v, t, i + 1, j, i); } else { FallingGood(ys, tol, v, t, i + 1, j, k); }
    } else {
      PlateauLogKeeps(ys, tol, v, s, i);
      assert t.log == PlateauLog(v, s, i) && t.plateauLength == 0 && t.lastMin == ys[i];
      FallingGood(ys, tol, v, t, i + 1, j, i);
    }
  }

  /** One iteration of the main loop keeps the invariant. */
  lemma StepKeepsGood(ys: seq<real>, tol: real, v: Variant, s: ScanState, i: nat)
    requires Good(ys, tol, v, s, i) && i < |ys|
    ensures Good(ys, tol, v, Step(ys, tol, v, s, i), i + 1)
  {
    if s.slope == Rising {
      if ys[i] >= s.lastMax - tol { RisingGoesOn(ys, tol, v, s, i); } else { RisingTurns(ys, tol, v, s, i); }
    } else {
      if ys[i] <= s.lastMin + tol { FallingGoesOn(ys, tol, v, s, i); } else { FallingTurns(ys, tol, v, s, i); }
    }
  }

  /** Re-reading the breakout sample only opens a one-sample plateau. */
  lemma BreakoutStep(ys: seq<real>, tol: real, v: Variant, s: ScanState, i: nat)
    requires AtBreakout(ys, tol, v, s, i)
    ensures Step(ys, tol, v, s, i) == s.(plateauLength := 1)
    ensures Good(ys, tol, v, Step(ys, tol, v, s, i), i + 1)
  {
    var t := Step(ys, tol, v, s, i);
    if s.slope == Rising {
      assert ys[0] < t.lastMax - tol && ys[i] == t.lastMax;
    } else {
      assert ys[0] > t.lastMin + tol && ys[i] == t.lastMin;
    }
  }

  /** The invariant holds when the main loop ends. */
  lemma {:induction false} RunKeepsGood(ys: seq<real>, tol: real, v: Variant, s: ScanState, i: nat)
    requires Good(ys, tol, v, s, i) || AtBreakout(ys, tol, v, s, i)
    ensures Good(ys, tol, v, Run(ys, tol, v, s, i), |ys|)
    decreases |ys| - i
  {
    if i < |ys| {
      if Good(ys, tol, v, s, i) {
        StepKeepsGood(ys, tol, v, s, i);
      } else {
        BreakoutStep(ys, tol, v, s, i);
      }
      RunKeepsGood(ys, tol, v, Step(ys, tol, v, s, i), i + 1);
    }
  }

  /** After the main loop the invariant holds, unless the whole input was one leading plateau. */
  lemma MainPassGood(ys: seq<real>, tol: real, v: Variant)
    requires tol > 0.0 && |ys| >= 3
    ensures var s := MainPass(ys, tol, v);
      (s.slope == Undefined && s.log == [] && s.plateauLength == 0) || Good(ys, tol, v, s, |ys|)
  {
    StartReady(ys, tol, v);
    var (s0, i0) := Start(ys, tol, v);
    if s0.slope != Undefined {
      RunKeepsGood(ys, tol, v, s0, i0);
    }
  }

  // ---------------------------------------------------------------------------
  // What a scan guarantees
  // ---------------------------------------------------------------------------

  /** The intervals of one kind lie in the range when the whole log does. */
  lemma {:induction false} KindInRange(log: seq<Emission>, hi: int, k: Kind)
    requires InRange(log, hi)
    ensures Forward(OfKind(log, k), hi)
  {
    if log != [] {
      var init := log[..|log| - 1];
      assert InRange(init, hi);
      KindInRange(init, hi, k);
      assert log == init + [Last(log)];
      Push(init, Last(log));
      ForwardConcat(OfKind(init, k), if Last(log).kind == k then [Last(log).iv] else [], hi);
    }
  }

  /** Fewer than three samples: nothing is reported. */
  lemma ShortInputIsEmpty(ys: seq<real>, tol: real, v: Variant)
    requires |ys| < 3
    ensures Scan(ys, tol, v) == []
  {
  }

  /** Every reported interval runs forwards and lies within the samples. */
  lemma ScanInRange(ys: seq<real>, tol: real, v: Variant)
    requires tol > 0.0
    ensures InRange(Scan(ys, tol, v), |ys| - 1)
  {
    if |ys| >= 3 {
      MainPassGood(ys, tol, v);
      var s := MainPass(ys, tol, v);
      var tail := Trailing(ys, tol, v, s);
      if tail != [] {
        InRangePush(s.log, tail[0], |ys| - 1, |ys| - 1);
        assert s.log + tail == s.log + [tail[0]];
      }
    }
  }

  /**
   * A rising run turns at `i`: the back-scan stops at an index `iStart` with
   * `0 <= iStart <= i - 2`, every sample strictly between `iStart` and `i` is
   * in the band under `lastMax`, and the maximum `[iStart + 1, i - 1]` is
   * reported (`[iStart, i]` without minimizing), so the `[iStart, i]` branch is
   * dead when minimizing.
   */
  lemma ReversalAtMaximum(ys: seq<real>, tol: real, v: Variant, s: ScanState, i: nat)
    requires Good(ys, tol, v, s, i) && i < |ys| && s.slope == Rising && ys[i] < s.lastMax - tol
    ensures var iStart := BackScanAbove(ys, i - 1, s.lastMax - tol);
      0 <= iStart <= i - 2 && ys[iStart] < s.lastMax - tol &&
      (forall m :: iStart < m < i ==> ys[m] >= s.lastMax - tol) &&
      Step(ys, tol, v, s, i) == ScanState(Falling, ys[i], s.lastMax, 0,
        s.log + [Emission(Maximum, if v.minimizeIntervals then Interval(iStart + 1, i - 1) else Interval(iStart, i))])
  {
    assert RisingOk(ys, tol, s, i);
    var j :| 0 <= j < i - 1 && ys[j] < s.lastMax - tol;
    BackScanAboveStops(ys, i - 1, s.lastMax - tol, j);
    TurnStep(ys, tol, v, s, i);
  }

  /** The mirror image of `ReversalAtMaximum`: a falling run turns at a minimum. */
  lemma ReversalAtMinimum(ys: seq<real>, tol: real, v: Variant, s: ScanState, i: nat)
    requires Good(ys, tol, v, s, i) && i < |ys| && s.slope == Falling && ys[i] > s.lastMin + tol
    ensures var iStart := BackScanBelow(ys, i - 1, s.lastMin + tol);
      0 <= iStart <= i - 2 && ys[iStart] > s.lastMin + tol &&
      (forall m :: iStart < m < i ==> ys[m] <= s.lastMin + tol) &&
      Step(ys, tol, v, s, i) == ScanState(Rising, s.lastMin, ys[i], 0,
        s.log + [Emission(Minimum, if v.minimizeIntervals then Interval(iStart + 1, i - 1) else Interval(iStart, i))])
  {
    assert FallingOk(ys, tol, s, i);
    var j :| 0 <= j < i - 1 && ys[j] > s.lastMin + tol;
    BackScanBelowStops(ys, i - 1, s.lastMin + tol, j);
    TurnStep(ys, tol, v, s, i);
  }

  /**
   * A run in the band is broken in the run's own direction: the plateau
   * `[i - plateauLength - 1, i - 1]`, at least two samples long and starting
   * after index 0, is reported and the count starts again.
   */
  lemma PlateauEmission(ys: seq<real>, tol: real, v: Variant, s: ScanState, i: nat)
    requires Good(ys, tol, v, s, i) && i < |ys| && v.reportsPlateaus && s.plateauLength > 0
    requires (s.slope == Rising && ys[i] >= s.lastMax + tol) || (s.slope == Falling && ys[i] <= s.lastMin - tol)
    ensures var p := i - s.plateauLength - 1; var t := Step(ys, tol, v, s, i);
      1 <= p < i - 1 && t.slope == s.slope && t.plateauLength == 0 &&
      t.log == s.log + [Emission(Plateau, Interval(p, i - 1))]
  {
  }

  /** The log of a main loop only grows. */
  lemma {:induction false} RunExtendsLog(ys: seq<real>, tol: real, v: Variant, s: ScanState, i: nat)
    ensures s.log <= Run(ys, tol, v, s, i).log
    decreases |ys| - i
  {
    if i < |ys| {
      var t := Step(ys, tol, v, s, i);
      assert s.log <= t.log;
      RunExtendsLog(ys, tol, v, t, i + 1);
    }
  }

  /**
   * A leading plateau: all samples before the first one outside the band around
   * `ys[0]` are in it; leaving it downwards reports the maximum `[0, b - 1]`,
   * upwards the minimum `[0, b - 1]` (`[0, b]` without minimizing; `b > 1`
   * always holds), and never leaving it reports nothing at all.
   */
  lemma LeadingPlateau(ys: seq<real>, tol: real, v: Variant)
    requires tol > 0.0 && |ys| >= 3 && ys[0] - tol <= ys[1] <= ys[0] + tol
    ensures var b := PlateauExit(ys, tol, 2); var log := Scan(ys, tol, v);
      var iv := if v.minimizeIntervals then Interval(0, b - 1) else Interval(0, b);
      2 <= b &&
      (forall m :: 0 <= m < b ==> ys[0] - tol <= ys[m] <= ys[0] + tol) &&
      (b == |ys| ==> log == []) &&
      (b < |ys| && ys[b] < ys[0] - tol ==> |log| > 0 && log[0] == Emission(Maximum, iv)) &&
      (b < |ys| && ys[b] > ys[0] + tol ==> |log| > 0 && log[0] == Emission(Minimum, iv))
  {
    PlateauExitIsFirst(ys, tol, 2);
    var (s0, i0) := Start(ys, tol, v);
    RunExtendsLog(ys, tol, v, s0, i0);
  }

  /** In the main loop's log, maxima and minima alternate (plateaus aside). */
  lemma MaximaMinimaAlternate(ys: seq<real>, tol: real, v: Variant)
    requires tol > 0.0 && |ys| >= 3
    ensures var t := Turns(MainPass(ys, tol, v).log);
      forall k :: 0 <= k < |t| - 1 ==> t[k].kind != t[k + 1].kind
  {
    MainPassGood(ys, tol, v);
  }

  /**
   * After the main loop at most one more interval is reported: an open
   * plateau of length `plateauLength` above the variant's threshold gives
   * `[last - plateauLength, last]`, which starts after index 0, a maximum when
   * the last sample is above `lastMax - tol` and a minimum otherwise.
   */
  lemma TrailingPlateau(ys: seq<real>, tol: real, v: Variant)
    requires tol > 0.0 && |ys| >= 3
    ensures var s := MainPass(ys, tol, v); var last := |ys| - 1; var pl := s.plateauLength;
      var kind := if ys[last] > s.lastMax - tol then Maximum else Minimum;
      Scan(ys, tol, v) == s.log + (if pl > v.trailingAbove then [Emission(kind, Interval(last - pl, last))] else []) &&
      (pl > v.trailingAbove ==> 1 <= last - pl < last)
  {
    MainPassGood(ys, tol, v);
  }

  // ---------------------------------------------------------------------------
  // Comparing the two scanners
  // ---------------------------------------------------------------------------

  /** Two states that agree on everything but the plateau bookkeeping. */
  ghost predicate SameTurns(s1: ScanState, s2: ScanState)
  {
    s1.slope == s2.slope && s1.lastMin == s2.lastMin && s1.lastMax == s2.lastMax && Turns(s1.log) == Turns(s2.log)
  }

  lemma StepSameTurns(ys: seq<real>, tol: real, v: Variant, w: Variant, s1: ScanState, s2: ScanState, i: nat)
    requires SameTurns(s1, s2) && v.minimizeIntervals == w.minimizeIntervals && i < |ys|
    ensures SameTurns(Step(ys, tol, v, s1, i), Step(ys, tol, w, s2, i))
  {
    if s1.slope == Rising {
      RisingSameTurns(ys, tol, v, w, s1, s2, i);
    } else if s1.slope == Falling {
      FallingSameTurns(ys, tol, v, w, s1, s2, i);
    }
  }

  lemma RisingSameTurns(ys: seq<real>, tol: real, v: Variant, w: Variant, s1: ScanState, s2: ScanState, i: nat)
    requires SameTurns(s1, s2) && v.minimizeIntervals == w.minimizeIntervals && i < |ys|
    ensures SameTurns(RisingStep(ys, tol, v, s1, i), RisingStep(ys, tol, w, s2, i))
  {
    var y := ys[i];
    if y < s1.lastMax - tol {
      var e := Emission(Maximum, ReversalInterval(v, BackScanAbove(ys, i - 1, s1.lastMax - tol), i));
      assert ReversalInterval(v, BackScanAbove(ys, i - 1, s1.lastMax - tol), i)
          == ReversalInterval(w, BackScanAbove(ys, i - 1, s2.lastMax - tol), i);
      Push(s1.log, e);
      Push(s2.log, e);
    } else if y >= s1.lastMax + tol {
      PlateauTurns(v, s1, i);
      PlateauTurns(w, s2, i);
      assert RisingStep(ys, tol, v, s1, i).log == PlateauLog(v, s1, i);
      assert RisingStep(ys, tol, w, s2, i).log == PlateauLog(w, s2, i);
    } else {
      assert RisingStep(ys, tol, v, s1, i).log == s1.log;
      assert RisingStep(ys, tol, w, s2, i).log == s2.log;
    }
  }

  lemma FallingSameTurns(ys: seq<real>, tol: real, v: Variant, w: Variant, s1: ScanState, s2: ScanState, i: nat)
    requires SameTurns(s1, s2) && v.minimizeIntervals == w.minimizeIntervals && i < |ys|
    ensures SameTurns(FallingStep(ys, tol, v, s1, i), FallingStep(ys, tol, w, s2, i))
  {
    var y := ys[i];
    if y > s1.lastMin + tol {
      var e := Emission(Minimum, ReversalInterval(v, BackScanBelow(ys, i - 1, s1.lastMin + tol), i));
      assert ReversalInterval(v, BackScanBelow(ys, i - 1, s1.lastMin + tol), i)
          == ReversalInterval(w, BackScanBelow(ys, i - 1, s2.lastMin + tol), i);
      Push(s1.log, e);
      Push(s2.log, e);
    } else if y <= s1.lastMin - tol {
      PlateauTurns(v, s1, i);
      PlateauTurns(w, s2, i);
      assert FallingStep(ys, tol, v, s1, i).log == PlateauLog(v, s1, i);
      assert FallingStep(ys, tol, w, s2, i).log == PlateauLog(w, s2, i);
    } else {
      assert FallingStep(ys, tol, v, s1, i).log == s1.log;
      assert FallingStep(ys, tol, w, s2, i).log == s2.log;
    }
  }

  /** A plateau emission leaves the maxima and minima alone. */
  lemma PlateauTurns(v: Variant, s: ScanState, i: int)
    ensures Turns(PlateauLog(v, s, i)) == Turns(s.log)
  {
    if v.reportsPlateaus && s.plateauLength > 0 {
      Push(s.log, Emission(Plateau, Interval(i - s.plateauLength - 1, i - 1)));
    }
  }

  lemma {:induction false} RunSameTurns(ys: seq<real>, tol: real, v: Variant, w: Variant, s1: ScanState, s2: ScanState, i: nat)
    requires SameTurns(s1, s2) && v.minimizeIntervals == w.minimizeIntervals
    ensures SameTurns(Run(ys, tol, v, s1, i), Run(ys, tol, w, s2, i))
    decreases |ys| - i
  {
    if i < |ys| {
      StepSameTurns(ys, tol, v, w, s1, s2, i);
      RunSameTurns(ys, tol, v, w, Step(ys, tol, v, s1, i), Step(ys, tol, w, s2, i), i + 1);
    }
  }

  /** Re-reading the breakout sample changes nothing but the plateau count. */
  lemma RescanSameTurns(ys: seq<real>, tol: real, v: Variant, w: Variant)
    requires tol > 0.0 && |ys| >= 3 && v.minimizeIntervals == w.minimizeIntervals
    requires v.rescansBreakout && !w.rescansBreakout
    ensures SameTurns(MainPass(ys, tol, v), MainPass(ys, tol, w))
  {
    var (s0, i0) := Start(ys, tol, v);
    var (s0', i0') := Start(ys, tol, w);
    assert s0 == s0';
    if i0 == i0' {
      RunSameTurns(ys, tol, v, w, s0, s0, i0);
    } else if i0 >= |ys| {
      assert Run(ys, tol, v, s0, i0) == s0 == Run(ys, tol, w, s0, i0');
    } else {
      assert i0' == i0 + 1;
      assert Step(ys, tol, v, s0, i0) == s0.(plateauLength := 1);
      RunSameTurns(ys, tol, v, w, s0.(plateauLength := 1), s0, i0 + 1);
    }
  }

  /**
   * The two scanners find the same maxima and minima, in the same order, up to
   * the end of the main loop, whenever they minimize alike; they differ only in
   * plateaus and in the trailing plateau.
   */
  lemma VariantsAgreeOnTurns(ys: seq<real>, tol: real, v: Variant, w: Variant)
    requires tol > 0.0 && |ys| >= 3 && v.minimizeIntervals == w.minimizeIntervals
    ensures Turns(MainPass(ys, tol, v).log) == Turns(MainPass(ys, tol, w).log)
  {
    if v.rescansBreakout && !w.rescansBreakout {
      RescanSameTurns(ys, tol, v, w);
    } else if w.rescansBreakout && !v.rescansBreakout {
      RescanSameTurns(ys, tol, w, v);
    } else {
      var (s0, i0) := Start(ys, tol, v);
      assert Start(ys, tol, w) == (s0, i0);
      RunSameTurns(ys, tol, v, w, s0, s0, i0);
    }
  }

  /** `extremaXY` (minimizing) and `localExtrema` report the same maxima and minima until the trailing plateau. */
  lemma LegacyAgreesWithCurrent(ys: seq<real>, tol: real)
    requires tol > 0.0 && |ys| >= 3
    ensures OfKind(MainPass(ys, tol, Legacy(true)).log, Maximum) == OfKind(MainPass(ys, tol, Current).log, Maximum)
    ensures OfKind(MainPass(ys, tol, Legacy(true)).log, Minimum) == OfKind(MainPass(ys, tol, Current).log, Minimum)
  {
    VariantsAgreeOnTurns(ys, tol, Legacy(true), Current);
    var l1, l2 := MainPass(ys, tol, Legacy(true)).log, MainPass(ys, tol, Current).log;
    TurnsKeepKind(l1, Maximum);
    TurnsKeepKind(l2, Maximum);
    TurnsKeepKind(l1, Minimum);
    TurnsKeepKind(l2, Minimum);
  }

  /**
   * The back-scan at a turn after a rising run: from `i - 1` back over samples
   * `>= bound` to the nearest sample below it, which an earlier sample below
   * `bound` guarantees exists.
   */
  method StartAbove(ys: seq<real>, i: nat, bound: real) returns (iStart: int)
    requires 1 <= i <= |ys| && exists j :: 0 <= j < i - 1 && ys[j] < bound
    ensures iStart == BackScanAbove(ys, i - 1, bound)
    ensures 0 <= iStart <= i - 1 && ys[iStart] < bound
    ensures forall m :: iStart < m < i ==> ys[m] >= bound
  {
    ghost var j :| 0 <= j < i - 1 && ys[j] < bound;
    BackScanAboveStops(ys, i - 1, bound, j);
    iStart := i - 1;
    while ys[iStart] >= bound
      invariant j <= iStart <= i - 1
      invariant BackScanAbove(ys, iStart, bound) == BackScanAbove(ys, i - 1, bound)
      decreases iStart
    {
      iStart := iStart - 1;
    }
  }

  /** The back-scan at a turn after a falling run: the mirror image of `StartAbove`. */
  method StartBelow(ys: seq<real>, i: nat, bound: real) returns (iStart: int)
    requires 1 <= i <= |ys| && exists j :: 0 <= j < i - 1 && ys[j] > bound
    ensures iStart == BackScanBelow(ys, i - 1, bound)
    ensures 0 <= iStart <= i - 1 && ys[iStart] > bound
    ensures forall m :: iStart < m < i ==> ys[m] <= bound
  {
    ghost var j :| 0 <= j < i - 1 && ys[j] > bound;
    BackScanBelowStops(ys, i - 1, bound, j);
    iStart := i - 1;
    while ys[iStart] <= bound
      invariant j <= iStart <= i - 1
      invariant BackScanBelow(ys, iStart, bound) == BackScanBelow(ys, i - 1, bound)
      decreases iStart
    {
      iStart := iStart - 1;
    }
  }
}
