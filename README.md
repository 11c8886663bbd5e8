# diff.js local extrema and finite differences, modelled in Dafny

This project models the numeric core of the diff.js library. It has three parts.

- **The tolerance-based local-extrema scanner** `localExtrema` (src/local-extrema.js). It makes one pass over the samples with a tolerance band `yTolerance > 0`. It keeps a rising/falling slope, a running `lastMax`/`lastMin` and a plateau counter. At each reversal it scans backwards to find where the extremum began and pushes an inclusive interval `[start, end]` to `maxima` or `minima`. It also reports leading, inner and trailing plateaus. Afterwards it builds the complementary `nonextrema` intervals.
- **The older scanner** `extremaXY` in diff.js, with its options `yTolerance` and `minimizeIntervals`, and its wrapper `extrema`. The wrapper names each interval by the key at its centre.
- **The in-place numeric loops.** `diffXY`/`diff` and `differentiateXY`/`differentiate` take n-fold divided differences and pop the stale last entry. `integralXY`/`integral` and `integrateXY`/`integrate` take the reverse running sum that the library calls an integral.

Both scanners are described by one specification state machine, `ExtremaScan.Scan(ys, tol, v)`. Its result is the ordered log of pushes, each tagged with the array it went to. The scanners differ in four policies, gathered in a `Variant`:

| policy | local-extrema.js | extremaXY |
|---|---|---|
| minimise intervals | always | the `minimizeIntervals` option |
| plateaus | reported | not reported |
| sample that ends a leading plateau | skipped (`i++` after the seek loop) | read again by the main loop |
| trailing plateau | when `plateauLength > 0` | when `plateauLength > 2` |

The imperative methods follow the JavaScript loop by loop: `LocalExtrema.LocalExtrema`, its sample methods, the back-scan loops, the nonextrema loop, and `DiffJs.ExtremaXY` with its helpers. Each is proved to produce exactly the specification's log, or its projections (`AllIntervals`, `OfKind`). What the scan guarantees is proved about the specification. The x value of a sample is its index; `extremaXY` labels intervals with an arbitrary x sequence `seq<T>`.

The numeric loops work on a `JsArray` class whose `items` field is rewritten in place and shortened by `Pop`. Each loop is proved equal to a closed-form specification function (`DividedDifferences`, `NthDifferences`, `ReverseSums`), and the calculus facts are proved about those functions. Samples and the tolerance are exact `real`s.

Module layout:
- `intervals.dfy`: intervals, the push log, its projections and `Option`;
- `extrema_scan.dfy`: the scan specification, its lemmas, and the back-scan loops both scanners share;
- `local_extrema.dfy`: src/local-extrema.js;
- `diff_js.dfy`: diff.js;
- `finite_differences.dfy`: the two numeric loops shared by diff.js, src/differentiate.js and src/integrate.js;
- `differentiate.dfy`: src/differentiate.js;
- `integrate.dfy`: src/integrate.js;
- `scan_examples.dfy`: worked inputs from the repository's test scenarios.

Three behaviours of the code are shown by lemmas.

- **Overlapping and nested intervals.** Reported intervals need not be disjoint or in order, in either scanner. Adjacent turns overlap whenever the samples after a peak stay inside both the band below `lastMax` and the band above the following `lastMin`: `[0, 1, 0.95, 0.94, 0.85, 1]` with tolerance 0.1 gives the maximum `[1, 3]` and then the minimum `[2, 4]` under `localExtrema` and under `extremaXY` alike, and the nonextrema link between them runs backwards, from 3 to 2 (`ScanExamples.OverlappingTurns`). In `localExtrema`, a plateau broken upwards inside a rising run is also reported before the maximum around it: `[0, 5, 5, 5, 6, 4]` with tolerance 1 gives plateau `[1, 3]` and then maximum `[1, 4]` (`ScanExamples.PlateauInsideMaximum`), and a nonextrema interval from 3 to 1 (`ScanExamples.NonextremaRunBackwards`). The repository describes the nonextrema as the complement of the extrema. The model follows the code. It proves that for every scan the extrema and the nonextrema together cover every sample (`LocalExtrema.GapsComplete`, and an ensures of `LocalExtrema.LocalExtrema`), and that the nonextrema all run forwards only when the extrema are ordered (`LocalExtrema.GapsForward`).
- **Trailing classification.** The trailing plateau is classified against `lastMax` even after a fall. A short dip after a peak therefore ends in a second maximum (`ScanExamples.TrailingAfterFall`). Maxima and minima alternate up to the end of the main loop (`ExtremaScan.MaximaMinimaAlternate`), not necessarily after the trailing push.
- **Dead fallback branches.** The `[iStart, i]` branches in the reversal code and the `[0, i]` branches in the leading-plateau code of src/local-extrema.js cannot be taken (`ExtremaScan.ReversalAtMaximum`, `ExtremaScan.ReversalAtMinimum`, `ExtremaScan.LeadingPlateau`).

## Model

| member | source | states |
|---|---|---|
| Intervals.Push | src/local-extrema.js:72-74 | A push appends its interval to `extrema` and to exactly the one kind array it belongs to. |
| Intervals.CountByKind | src/local-extrema.js:72-74 | For every push log, the length of `extrema` is the sum of the lengths of `maxima`, `minima` and `plateaus`. |
| ExtremaScan.BackScanAboveStops | src/local-extrema.js:147-151 | If some sample at or after `w` lies below the bound, the back-scan stops at an index `>= w` whose sample is below the bound, and every sample it passed is `>=` the bound. |
| ExtremaScan.BackScanBelowStops | src/local-extrema.js:185-189 | The mirror image of `BackScanAboveStops` for the scan after a falling run. |
| ExtremaScan.PlateauExitIsFirst | src/local-extrema.js:90-117 | The seek loop over a leading plateau stops at the first sample outside the band around `y(0)`, and every sample before it is inside the band. |
| ExtremaScan.StepKeepsGood | src/local-extrema.js:122-201 | One main-loop iteration keeps the loop invariant `Good`. It says that logged intervals run forwards within the samples read, that maxima and minima alternate, and that a sample beyond the band exists behind the running extreme, so the next back-scan stays at index 0 or above. |
| ExtremaScan.RunKeepsGood | src/local-extrema.js:122-201 | The whole main loop keeps `Good`. This includes the older scanner's re-read of the sample that ended a leading plateau. |
| ExtremaScan.BreakoutStep | diff.js:256-299 | In `extremaXY`, re-reading the sample that ended a leading plateau changes nothing but opens a one-sample plateau. |
| ExtremaScan.MainPassGood | src/local-extrema.js:76-201 | After the leading part and the main loop, either the whole input was one leading plateau and nothing was reported, or `Good` holds at the end, for both scanners. |
| ExtremaScan.ShortInputIsEmpty | src/local-extrema.js:46-51 | Fewer than three samples push nothing. |
| ExtremaScan.ScanInRange | src/local-extrema.js:122-217 | Every reported interval runs forwards within `[0, lastIndex]`. |
| ExtremaScan.ReversalAtMaximum | src/local-extrema.js:144-161 | At a turn from rising to falling, the back-scan stops at some `iStart` with `0 <= iStart <= i - 2`. The sample there is below `lastMax - yTolerance` and every later sample up to `i - 1` is at or above it. The maximum reported is `[iStart + 1, i - 1]` when minimising, and the run turns to falling with `lastMin = y(i)`. |
| ExtremaScan.ReversalAtMinimum | src/local-extrema.js:182-199 | The mirror image at a turn from falling to rising: the minimum `[iStart + 1, i - 1]` within `lastMin + yTolerance`. |
| ExtremaScan.PlateauEmission | src/local-extrema.js:127-143 | A run in the band that is broken in the run's own direction reports the plateau `[i - plateauLength - 1, i - 1]`, which starts after index 0, and resets `plateauLength`. |
| ExtremaScan.RunExtendsLog | src/local-extrema.js:122-201 | The main loop only appends to the result arrays. |
| ExtremaScan.LeadingPlateau | src/local-extrema.js:76-119 | With `y(1)` in the band around `y(0)`, the first sample `b` outside the band satisfies `b >= 2`, and every sample before it is in the band. Leaving the band downwards reports the maximum `[0, b - 1]` first, and upwards the minimum `[0, b - 1]` (`[0, b]` without minimising). Never leaving it reports nothing. |
| ExtremaScan.MaximaMinimaAlternate | src/local-extrema.js:158-160 | In the main loop's results, maxima and minima strictly alternate. |
| ExtremaScan.TrailingPlateau | src/local-extrema.js:204-217 | At most one interval follows the main loop. It is `[lastIndex - plateauLength, lastIndex]` when `plateauLength` exceeds the scanner's threshold, a maximum when the last sample is above `lastMax - yTolerance` and a minimum otherwise. |
| ExtremaScan.KindInRange | src/local-extrema.js:72-74 | When every logged interval runs forwards within `[0, lastIndex]`, so does every interval of each kind array. |
| ExtremaScan.RescanSameTurns | diff.js:256-288 | Re-reading the sample that ended a leading plateau does not change the slope, the running extremes or the maxima and minima reported by the main loop. |
| ExtremaScan.VariantsAgreeOnTurns | diff.js:288-358 | Up to the end of the main loop, two scanners with the same interval policy report the same maxima and minima, in the same order, whatever their plateau policies. The trailing push can still differ, as `ScanExamples.ShortTrailingPlateau` shows. |
| ExtremaScan.LegacyAgreesWithCurrent | diff.js:288-358 | `extremaXY` with `minimizeIntervals` and `localExtrema` report the same maxima and the same minima from their main loops. |
| LocalExtrema.Begin | src/local-extrema.js:61-119 | The start of the scan, including the seek loop over a leading plateau and the `i++` after it, yields the specification's start state and loop index. |
| LocalExtrema.RisingSample | src/local-extrema.js:125-162 | One rising iteration, with its back-scan, is the specification's step. |
| LocalExtrema.FallingSample | src/local-extrema.js:164-200 | One falling iteration is the specification's step. |
| LocalExtrema.Finish | src/local-extrema.js:204-217 | The trailing-plateau push is the specification's trailing emission. |
| ExtremaScan.StartAbove | src/local-extrema.js:147-151 | The back-scan loop ends on the nearest sample below the bound, at an index `>= 0`, and every sample after it is at or above the bound. |
| ExtremaScan.StartBelow | src/local-extrema.js:185-189 | The mirror image for the back-scan after a falling run. |
| LocalExtrema.MainLoop | src/local-extrema.js:61-201 | The start and the main loop together compute the specification's main pass, `MainPass(ys, yTolerance, Current)`, and end holding the last sample. |
| LocalExtrema.Sample | src/local-extrema.js:125-200 | One main-loop iteration dispatches on the slope to the rising or the falling branch; the result is the specification's step, and the loop invariant `Good` holds one sample further on. |
| LocalExtrema.PushLinks | src/local-extrema.js:234-239 | The link loop appends, to what is already there, one interval from each reported interval's end to the next one's start, and nothing else. |
| LocalExtrema.NonExtrema | src/local-extrema.js:219-247 | The complement loop yields the single interval `[0, lastIndex]` when nothing was reported. Otherwise it yields a lead-in when the first interval does not start at 0, a link from each interval's end to the next one's start, and a run-out when the last does not end at `lastIndex`. |
| LocalExtrema.LocalExtrema | src/local-extrema.js:33-251 | A missing `yTolerance` is 0.1 and a missing `nonextrema` is `true`. Fewer than three samples give five empty arrays. Otherwise `extrema` is every push in order, and `maxima`, `minima` and `plateaus` are the pushes of each kind, all as the scan specification reports them. `nonextrema` is the complement of `extrema` when requested and absent otherwise, and every sample index lies in an extremum or in a nonextrema interval. |
| LocalExtrema.GapsComplete | src/local-extrema.js:219-247 | For any extrema, ordered or not, every index in `[0, lastIndex]` lies in an extremum or in a nonextrema interval. |
| LocalExtrema.GapsForward | src/local-extrema.js:219-247 | For ordered extrema, every nonextrema interval runs forwards within `[0, lastIndex]`. |
| ScanExamples.HighPlateauAtStart | test/local-extrema.test.js:37-42 | `[5,5,5,5,4,3]` gives the maximum `[0, 3]` and nothing else. |
| ScanExamples.HighPlateauInMiddle | test/local-extrema.test.js:44-49 | `[3,4,5,5,5,5,4,3]` gives the maximum `[2, 5]` and nothing else. |
| ScanExamples.MinimumInMiddle | test/local-extrema.test.js:7-12 | `[2,1,0,1,2]` gives the minimum `[2, 2]` and nothing else. |
| ScanExamples.MaximumInMiddle | test/local-extrema.test.js:14-19 | `[2,3,4,3,2]` gives the maximum `[2, 2]` and nothing else. |
| ScanExamples.PlateausAtBothEnds | test/local-extrema.test.js:58-64 | `[5,5,5,5,4,3,4,5,5,5,5]` gives the maxima `[0, 3]` and `[7, 10]` around the minimum `[5, 5]`. |
| ScanExamples.PlateauInsideMaximum | src/local-extrema.js:135-157 | `[0,5,5,5,6,4]` with tolerance 1 gives the plateau `[1, 3]` and then the maximum `[1, 4]` that contains it. |
| ScanExamples.TrailingAfterFall | src/local-extrema.js:204-212 | `[0,10,8.9,9.5]` with tolerance 1 gives two maxima in a row: the trailing plateau is judged against the stale `lastMax`. |
| ScanExamples.ShortTrailingPlateau | diff.js:359-372 | A trailing plateau of two repeats is reported by `localExtrema` but not by `extremaXY`, which needs three. With three repeats, `[3,4,5,5,5,5]` gives the maximum `[2, 5]` under both, as test/local-extrema.test.js:51-56 expects of `localExtrema`. |
| ScanExamples.OverlappingTurns | src/local-extrema.js:144-199 | `[0,1,0.95,0.94,0.85,1]` with tolerance 0.1 gives the maximum `[1, 3]` and then the overlapping minimum `[2, 4]` under both scanners, and the nonextrema `[0,1]`, `[3,2]` and `[4,5]`. |
| ScanExamples.NonextremaRunBackwards | src/local-extrema.js:234-239 | For `[0,5,5,5,6,4]` with tolerance 1, the nonextrema are `[0,1]`, `[3,1]` and `[4,5]`; the middle one runs backwards. |
| ScanExamples.LegacyMinimumInMiddle | test/local-extrema-xy.test.js:9-13 | `extremaXY` on `[5,4,3,2,1,0,1,2,3,4,5]` gives the minimum `[5, 5]` only. The test calls the package's `localExtrema` and expects the `{maxima, minima}` shape that `extremaXY` returns; it is read here as an `extremaXY` scenario. |
| ScanExamples.LegacyHighPlateauAtStart | test/local-extrema-xy.test.js:33-37 | `extremaXY` on `[10,10,10,10,10,9,8,7,6,5]` gives the maximum `[0, 4]` only. The test calls the package's `localExtrema` and expects the `{maxima, minima}` shape that `extremaXY` returns; it is read here as an `extremaXY` scenario. |
| ScanExamples.LegacyLowPlateausAtBothEnds | test/local-extrema-xy.test.js:81-85 | `extremaXY` on the low-plateau-at-both-ends samples gives the minima `[0, 4]` and `[14, 18]` around the maximum `[9, 9]`. The test calls the package's `localExtrema` and expects the `{maxima, minima}` shape that `extremaXY` returns; it is read here as an `extremaXY` scenario. |
| ScanExamples.LowPlateausAtBothEnds | test/local-extrema-xy.test.js:81-85 | `localExtrema` gives the same three intervals on those samples. |
| ScanExamples.LegacyUnminimized | diff.js:343-352 | Without `minimizeIntervals`, `[2,1,0,1,2]` gives the minimum `[1, 3]`, which includes the samples on both sides of the turn. |
| DiffJs.LegacyBegin | diff.js:234-286 | The start of `extremaXY` yields the specification's start state. The index is left on the sample that ended a leading plateau, since there is no `i++`. |
| DiffJs.LegacyRising | diff.js:292-324 | One rising iteration of `extremaXY`, which reports no plateau, is the specification's step. |
| DiffJs.LegacyFalling | diff.js:325-357 | One falling iteration of `extremaXY` is the specification's step. |
| DiffJs.LegacyFinish | diff.js:359-372 | The trailing push happens only when `plateauLength > 2` and is the specification's trailing emission. |
| DiffJs.LegacyMainLoop | diff.js:288-358 | The main loop of `extremaXY` computes the specification's main pass and ends holding the last sample. |
| DiffJs.ExtremaXY | diff.js:220-374 | With the defaults `yTolerance = 0.1` and `minimizeIntervals = true` filled in, `minima` and `maxima` are the minimum and maximum intervals of the specification scan, each labelled `(x(start), x(end))`, with every index inside the array. |
| DiffJs.Centres | diff.js:195-199 | Each index pair is mapped to the key at `floor((start + end) / 2)`. |
| DiffJs.CentreInside | diff.js:195-199 | That centre lies inside the interval and inside the keys. |
| DiffJs.Extrema | diff.js:187-201 | As written, `extrema` reports the centre keys of the intervals scanned with the default tolerance 0.1, whatever `yTolerance` it is given. |
| DiffJs.ExtremaWithTolerance | diff.js:187-201 | With the tolerance passed as an option, the centre keys are those of the scan with the requested tolerance. |
| DiffJs.ToleranceIgnored | diff.js:193 | On `[0, 1, 0]`, `extrema` reports a maximum at index 1 where the requested tolerance 2 reports nothing. |
| DiffJs.DiffXY | diff.js:61-78 | The y array becomes the n-th divided differences; the x array is popped once for each level above the first. |
| DiffJs.Diff | diff.js:32-39 | The values become their n-th differences over x = 0, 1, ..., m - 1. |
| DiffJs.IntegralXY | diff.js:143-160 | For order at most 1, the y array becomes its reverse sums. |
| DiffJs.Integral | diff.js:105-112 | For order at most 1, the values become their reverse sums over x = 0, 1, ..., m - 1. |
| FiniteDifferences.JsArray.Pop | diff.js:75 | `pop` drops the last element, and an empty array stays empty. |
| FiniteDifferences.DividedDifferences | diff.js:67-77 | One differencing step leaves `m - 1` entries (none for an empty array). |
| FiniteDifferences.NthDifferences | diff.js:63-66 | n-fold differencing never lengthens the array. |
| FiniteDifferences.ReverseSums | diff.js:148-157 | The integral step keeps the length. |
| FiniteDifferences.ReverseSumsRecurrence | src/integrate.js:42-48 | The closed form `out[k] = -(y[k] Δx(k) + ... + y[len] Δx(len))` is the seed `out[len] = -y[len] (x[len] - x[len-1])` plus the recurrence `out[k] = -y[k] (x[k+1] - x[k]) + out[k+1]`. Entries past `len` are unchanged. |
| FiniteDifferences.DifferenceStep | src/differentiate.js:61-68 | The ascending in-place loop plus `pop` turns entry `k` into `(y[k+1] - y[k]) / (x[k+1] - x[k])` of the original values, as the specification function states. |
| FiniteDifferences.ReverseSumStep | src/integrate.js:72-80 | The seed and the descending in-place loop produce exactly the closed-form reverse sums. |
| FiniteDifferences.NthDifferencesLength | diff.js:63-66 | n-fold differencing leaves `m - n` entries (`m - 1` for `n <= 1`), down to none. |
| FiniteDifferences.UnitDifferences | src/differentiate.js:7-10 | With unit x steps, entry `k` is the plain difference `v[k+1] - v[k]`. |
| FiniteDifferences.UnitSecondDifferences | diff.js:63-66 | Differencing twice with unit steps, with one pop of x, gives `v[k+2] - 2 v[k+1] + v[k]`. |
| FiniteDifferences.DifferencesIgnoreShift | diff.js:130-134 | Adding a constant to every sample leaves the differences unchanged. |
| FiniteDifferences.IntegralOfDifferences | diff.js:130-134 | With unit steps, integrating the differences of `v` (at least 3 samples) gives `v[k] - v[last]`: the original up to a constant, with the last sample lost. |
| FiniteDifferences.DifferencesOfIntegral | src/integrate.js:53-57 | With unit steps, differencing the integral of `y` gives back every sample of `y` but the last. |
| Differentiate.DifferentiateXY | src/differentiate.js:54-71 | For order at most 1, the y array becomes its divided differences and is returned. |
| Differentiate.Differentiate | src/differentiate.js:25-32 | For order at most 1, the values become their divided differences over x = 0, 1, ..., m - 1. |
| Integrate.IntegrateXY | src/integrate.js:66-83 | For order at most 1, the y array becomes its reverse sums and is returned. |
| Integrate.Integrate | src/integrate.js:28-35 | For order at most 1, the values become their reverse sums over x = 0, 1, ..., m - 1. |

## Left out

- **Floating point.** Samples, x values and the tolerance are exact reals. IEEE rounding, NaN and infinities are not modelled.
- **Tolerance.** `localExtrema` and `extremaXY` require `yTolerance > 0`; the code does not check it.
- **Input normalisation.** `getArray`, `Object.keys`/`Object.values`, objects used as maps are not modelled. src/shared.js is not part of this model. Inputs are sequences of reals, the keys of `extrema` are a generic sequence, and the unit-step wrappers use the indices as x values.
- **Accessor options.** The pluggable options `y`, `result` and `length` of `localExtrema` are not modelled: the y value of a sample is `ys[i]` and its x value is `i`. Its other two options, `yTolerance` and `nonextrema`, are modelled with their defaults by `LocalExtrema.ScanOptions`.
- LocalExtrema.LocalExtrema: an options object that sets `yTolerance` to a non-positive number is excluded.
- **Per-array pushes.** `localExtrema` pushes each interval to two arrays. The model keeps one ordered log tagged by array, and the arrays are its projections, so the separate array objects and their aliasing are not modelled.
- DiffJs.ExtremaXY: requires `|xs| == |ys|`. The code tests only `xArray.length < 3` and reads `yArray` up to its own length.
- DiffJs.ExtremaXY: an options object that sets `yTolerance` to a non-positive number is excluded.
- **Differencing preconditions.** `DifferenceStep`, `DiffXY` and `DifferentiateXY` require the x steps they divide by to be nonzero. Division by zero in JavaScript gives an infinity or NaN.
- **Aliasing.** The x and y arrays are required to be different objects.
- DiffJs.IntegralXY: order `n > 1` is excluded. diff.js:146 calls `integral(xArray, yArray, n-1)`, and `integral` takes `(values, n)`: the x array is treated as the values and the order becomes the y array.
- DiffJs.Integral: order `n > 1` is excluded, for the same reason.
- **Integral with fewer than two samples.** `ReverseSumStep`, `IntegralXY`, `Integral`, `IntegrateXY` and `Integrate` require at least two usable samples. With fewer, the seed reads `x[len-1]` outside the array and writes NaN.
- Differentiate.Differentiate: as written, src/differentiate.js:31 calls `diffXY`, which that file neither defines nor imports, so every call throws a ReferenceError. The model calls `DifferentiateXY`, the evident target, and order `n > 1` is excluded.
- Differentiate.DifferentiateXY: order `n > 1` is excluded. src/differentiate.js:57 recurses through the same undefined `diffXY`. The working n-fold recursion of diff.js:63-66 is modelled as `DiffJs.DiffXY`.
- Integrate.Integrate: as written, src/integrate.js:34 calls `integralXY`, which that file neither defines nor imports. The model calls `IntegrateXY`, and order `n > 1` is excluded.
- Integrate.IntegrateXY: order `n > 1` is excluded, because src/integrate.js:69 calls the undefined `integral`.
- **Unmodelled files.** test/benchmark.js (a timing script over random data) and src/index.js (re-exports only) are not part of this model.
- **Commented-out tracing.** The commented-out `console.log` lines are not modelled.

## Findings

| source | as written | input that shows it | evidently intended | confidence | as-written member | corrected member |
|---|---|---|---|---|---|---|
| diff.js:193 | `extrema` passes its `yTolerance` number where `extremaXY` expects an options object. `Object.assign` takes no fields from a number, so the scan always runs with the default tolerance 0.1. | `extrema([0, 1, 0], 2)` reports a maximum at index 1; with tolerance 2 the rise of 1 is noise and nothing should be reported | `extremaXY(xArray, yArray, { yTolerance })` | high; not executed | DiffJs.Extrema, DiffJs.ToleranceIgnored | DiffJs.ExtremaWithTolerance |
