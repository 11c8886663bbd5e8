/**
 * The numeric loops shared by diff.js, src/differentiate.js and
 * src/integrate.js: one step of divided differences and one step of the
 * reverse running sum they call an integral.  Both rewrite the y array in
 * place; the differencing step then pops its last element.
 */
module FiniteDifferences {

  /** A JavaScript array of numbers, rewritten in place and shortened by `pop`. */
  class JsArray {
    var items: seq<real>

    constructor(items: seq<real>)
      ensures this.items == items
    {
      this.items := items;
    }

    /** Drops the last element; an empty array stays empty. */
    method Pop()
      modifies this
      ensures items == if old(items) == [] then [] else old(items)[..|old(items)| - 1]
    {
      if items != [] {
        items := items[..|items| - 1];
      }
    }
  }

  /** `len` of the loops: one less than the shorter of the two arrays, -1 when one is empty. */
  function Span(xs: seq<real>, ys: seq<real>): int
  {
    (if |xs| < |ys| then |xs| else |ys|) - 1
  }

  /** The divided difference of `(x0, y0)` and `(x1, y1)`. */
  function Quotient(y0: real, y1: real, x0: real, x1: real): real
    requires x1 != x0
  {
    (y1 - y0) / (x1 - x0)
  }

  /** One entry of the reverse sum: minus the sample times its width, plus the entry after it. */
  function Accumulate(y: real, width: real, next: real): real
  {
    -y * width + next
  }

  /** The x steps the differencing loop divides by are not zero. */
  predicate StepsNonzero(xs: seq<real>, ys: seq<real>)
  {
    forall k :: 0 <= k < Span(xs, ys) ==> xs[k + 1] != xs[k]
  }

  /** The x values `0, 1, ..., n - 1` the unit-step wrappers use. */
  function Positions(n: nat): (r: seq<real>)
    ensures |r| == n && forall k :: 0 <= k < n ==> r[k] == k as real
  {
    seq(n, k => k as real)
  }

  /** `xs` after `c` pops. */
  function Dropped(xs: seq<real>, c: nat): seq<real>
  {
    xs[..if c < |xs| then |xs| - c else 0]
  }

  /**
   * One differencing step: entry `k < len` becomes the divided difference of
   * the original values over `[x(k), x(k + 1)]`; entries from `len` on are
   * kept, and the last entry is popped.
   */
  function DividedDifferences(xs: seq<real>, ys: seq<real>): (r: seq<real>)
    requires StepsNonzero(xs, ys)
    ensures |r| == if |ys| == 0 then 0 else |ys| - 1
  {
    var m := if |ys| == 0 then 0 else |ys| - 1;
    seq(m, k requires 0 <= k < m => if k < Span(xs, ys) then Quotient(ys[k], ys[k + 1], xs[k], xs[k + 1]) else ys[k])
  }

  /** Popping x values keeps the steps that remain in use nonzero. */
  lemma DroppedStepsNonzero(xs: seq<real>, ys: seq<real>, c: nat, zs: seq<real>)
    requires StepsNonzero(xs, ys) && |zs| <= |ys|
    ensures StepsNonzero(Dropped(xs, c), zs)
  {
  }

  /**
   * Differencing applied `n` times, with one pop of the x values for every
   * level above the first; `n <= 1` is a single step.
   */
  function NthDifferences(xs: seq<real>, ys: seq<real>, n: int): (r: seq<real>)
    requires StepsNonzero(xs, ys)
    ensures |r| <= |ys|
    decreases n
  {
    if n <= 1 then DividedDifferences(xs, ys)
    else
      var prev := NthDifferences(xs, ys, n - 1);
      DroppedStepsNonzero(xs, ys, n - 1, prev);
      DividedDifferences(Dropped(xs, n - 1), prev)
  }

  /** The width given to sample `j` by the reverse sum: the next x step, or for `j = len` the last one again. */
  function Width(xs: seq<real>, len: int, j: int): real
    requires 1 <= len < |xs| && 0 <= j <= len
  {
    if j < len then xs[j + 1] - xs[j] else xs[len] - xs[len - 1]
  }

  /** `ys[k] * Width(k) + ... + ys[len] * Width(len)`. */
  function WeightedTail(xs: seq<real>, ys: seq<real>, len: int, k: int): real
    requires 1 <= len < |xs| && len < |ys| && 0 <= k <= len + 1
    decreases len + 1 - k
  {
    if k > len then 0.0 else ys[k] * Width(xs, len, k) + WeightedTail(xs, ys, len, k + 1)
  }

  /**
   * The integral step in closed form: entry `k <= len` is minus the weighted
   * sum of the samples from `k` to `len`, as if a further x step of the last
   * width led to a value 0; entries past `len` are kept.
   */
  function ReverseSums(xs: seq<real>, ys: seq<real>): (r: seq<real>)
    requires Span(xs, ys) >= 1
    ensures |r| == |ys|
  {
    var len := Span(xs, ys);
    seq(|ys|, k requires 0 <= k < |ys| => if k <= len then -WeightedTail(xs, ys, len, k) else ys[k])
  }

  /**
   * Seen from the end, the closed form is a seed followed by one recurrence
   * per entry, the order the loop computes it in.
   */
  lemma ReverseSumsRecurrence(xs: seq<real>, ys: seq<real>)
    requires Span(xs, ys) >= 1
    ensures var len := Span(xs, ys); var r := ReverseSums(xs, ys);
      r[len] == -ys[len] * (xs[len] - xs[len - 1]) &&
      (forall k :: 0 <= k < len ==> r[k] == Accumulate(ys[k], xs[k + 1] - xs[k], r[k + 1])) &&
      (forall k :: len < k < |ys| ==> r[k] == ys[k])
  {
    ReverseSumsSeed(xs, ys);
    forall k | 0 <= k < Span(xs, ys)
      ensures ReverseSums(xs, ys)[k] == Accumulate(ys[k], xs[k + 1] - xs[k], ReverseSums(xs, ys)[k + 1])
    {
      ReverseSumsStep(xs, ys, k);
    }
  }

  /** The entry at `len`: the last sample times the last x step, negated. */
  lemma ReverseSumsSeed(xs: seq<real>, ys: seq<real>)
    requires Span(xs, ys) >= 1
    ensures var len := Span(xs, ys); ReverseSums(xs, ys)[len] == -ys[len] * (xs[len] - xs[len - 1])
  {
    var len := Span(xs, ys);
    assert WeightedTail(xs, ys, len, len + 1) == 0.0;
    Negate(ys[len], xs[len] - xs[len - 1]);
  }

  /** An entry before `len`: its own share added to the entry after it. */
  lemma ReverseSumsStep(xs: seq<real>, ys: seq<real>, k: nat)
    requires 0 <= k < Span(xs, ys)
    ensures ReverseSums(xs, ys)[k] == Accumulate(ys[k], xs[k + 1] - xs[k], ReverseSums(xs, ys)[k + 1])
  {
    Negate(ys[k], xs[k + 1] - xs[k]);
  }

  lemma Negate(a: real, b: real)
    ensures -a * b == -(a * b)
  {
  }

  /** The differencing loop, ascending, so each entry is read before it is overwritten; then the stale last entry is popped. */
  method DifferenceStep(xs: JsArray, ys: JsArray)
    requires xs != ys && StepsNonzero(xs.items, ys.items)
    modifies ys
    ensures ys.items == DividedDifferences(old(xs.items), old(ys.items))
  {
    ghost var y := ys.items;
    var x := xs.items;
    var len := Span(x, ys.items);
    ghost var n := if len < 0 then 0 else len;
    var k := 0;
    while k < len
      invariant 0 <= k <= n && |ys.items| == |y|
      invariant forall j :: 0 <= j < k ==> ys.items[j] == Quotient(y[j], y[j + 1], x[j], x[j + 1])
      invariant forall j :: k <= j < |y| ==> ys.items[j] == y[j]
    {
      ys.items := ys.items[k := Quotient(ys.items[k], ys.items[k + 1], x[k], x[k + 1])];
      k := k + 1;
    }
    ys.Pop();
    assert ys.items == DividedDifferences(x, y);
  }

  /**
   * The integral loop: the entry at `len` is seeded, then a descending pass
   * adds each sample's share to the already updated entry after it.
   */
  method ReverseSumStep(xs: JsArray, ys: JsArray)
    requires xs != ys && Span(xs.items, ys.items) >= 1
    modifies ys
    ensures ys.items == ReverseSums(old(xs.items), old(ys.items))
  {
    ghost var y := ys.items;
    var x := xs.items;
    ghost var out := ReverseSums(x, y);
    ReverseSumsRecurrence(x, y);
    var len := Span(x, ys.items);
    ys.items := ys.items[len := -ys.items[len] * (x[len] - x[len - 1])];
    var k := len - 1;
    while k >= 0
      invariant -1 <= k < len && |ys.items| == |y|
      invariant forall j :: 0 <= j <= k ==> ys.items[j] == y[j]
      invariant forall j :: k < j < |y| ==> ys.items[j] == out[j]
    {
      ys.items := ys.items[k := Accumulate(ys.items[k], x[k + 1] - x[k], ys.items[k + 1])];
      k := k - 1;
    }
    assert ys.items == out;
  }

  // ---------------------------------------------------------------------------
  // What the steps compute
  // ---------------------------------------------------------------------------

  /** Each level of differencing shortens the array by one, down to empty. */
  lemma {:induction false} NthDifferencesLength(xs: seq<real>, ys: seq<real>, n: int)
    requires StepsNonzero(xs, ys)
    ensures var m := if n <= 1 then 1 else n;
      |NthDifferences(xs, ys, n)| == if |ys| < m then 0 else |ys| - m
    decreases n
  {
    if n > 1 {
      NthDifferencesLength(xs, ys, n - 1);
    }
  }

  /** Entry by entry: divided differences up to `len`, the old values after it. */
  lemma DividedDifferencesAt(xs: seq<real>, ys: seq<real>)
    requires StepsNonzero(xs, ys)
    ensures var r := DividedDifferences(xs, ys);
      (forall k :: 0 <= k < Span(xs, ys) ==> r[k] == Quotient(ys[k], ys[k + 1], xs[k], xs[k + 1])) &&
      (forall k :: 0 <= k < |r| && Span(xs, ys) <= k ==> r[k] == ys[k])
  {
  }

  lemma QuotientUnit(a: real, b: real, x: real)
    ensures Quotient(a, b, x, x + 1.0) == b - a
  {
  }

  lemma QuotientShift(a: real, b: real, x0: real, x1: real, c: real)
    requires x1 != x0
    ensures Quotient(a + c, b + c, x0, x1) == Quotient(a, b, x0, x1)
  {
    assert (b + c) - (a + c) == b - a;
  }

  lemma AccumulateUnit(a: real, b: real)
    ensures Accumulate(a, 1.0, b) == b - a
  {
  }

  /** With unit x steps a divided difference is the plain difference of neighbours. */
  lemma UnitDifferences(v: seq<real>)
    ensures var d := DividedDifferences(Positions(|v|), v);
      |d| == (if |v| == 0 then 0 else |v| - 1) &&
      forall k :: 0 <= k < |v| - 1 ==> d[k] == v[k + 1] - v[k]
  {
    var xs := Positions(|v|);
    DividedDifferencesAt(xs, v);
    forall k | 0 <= k < |v| - 1
      ensures DividedDifferences(xs, v)[k] == v[k + 1] - v[k]
    {
      assert xs[k + 1] == xs[k] + 1.0;
      QuotientUnit(v[k], v[k + 1], xs[k]);
    }
  }

  /** Applied twice with unit steps (one pop of the x values), differencing gives second differences. */
  lemma UnitSecondDifferences(v: seq<real>)
    ensures var d := NthDifferences(Positions(|v|), v, 2);
      forall k :: 0 <= k < |v| - 2 ==> d[k] == v[k + 2] - 2.0 * v[k + 1] + v[k]
  {
    var d1 := DividedDifferences(Positions(|v|), v);
    UnitDifferences(v);
    if |v| >= 1 {
      assert Dropped(Positions(|v|), 1) == Positions(|v| - 1);
      UnitDifferences(d1);
    }
  }

  /** Every sample moved by the constant `c`. */
  function Shifted(ys: seq<real>, c: real): (r: seq<real>)
    ensures |r| == |ys| && forall k :: 0 <= k < |ys| ==> r[k] == ys[k] + c
  {
    seq(|ys|, k requires 0 <= k < |ys| => ys[k] + c)
  }

  /** Differencing cannot see a constant added to every sample. */
  lemma DifferencesIgnoreShift(xs: seq<real>, ys: seq<real>, c: real)
    requires StepsNonzero(xs, ys)
    ensures StepsNonzero(xs, Shifted(ys, c))
    ensures forall k :: 0 <= k < Span(xs, ys) ==> DividedDifferences(xs, Shifted(ys, c))[k] == DividedDifferences(xs, ys)[k]
  {
    var zs := Shifted(ys, c);
    assert Span(xs, zs) == Span(xs, ys);
    DividedDifferencesAt(xs, ys);
    DividedDifferencesAt(xs, zs);
    forall k | 0 <= k < Span(xs, ys)
      ensures DividedDifferences(xs, zs)[k] == DividedDifferences(xs, ys)[k]
    {
      QuotientShift(ys[k], ys[k + 1], xs[k], xs[k + 1], c);
    }
  }

  /**
   * Integrating the differences of `v` with unit steps gives back `v` up to
   * the constant `v[last]`, except that the last sample itself is lost: entry
   * `k` is `v[k] - v[last]`.
   */
  lemma IntegralOfDifferences(v: seq<real>)
    requires |v| >= 3
    ensures var d := DividedDifferences(Positions(|v|), v);
      Span(Positions(|d|), d) >= 1 &&
      var r := ReverseSums(Positions(|d|), d);
      |r| == |v| - 1 && forall k :: 0 <= k < |r| ==> r[k] == v[k] - v[|v| - 1]
  {
    var d := DividedDifferences(Positions(|v|), v);
    UnitDifferences(v);
    forall k | 0 <= k < |d|
      ensures ReverseSums(Positions(|d|), d)[k] == v[k] - v[|v| - 1]
    {
      IntegralFrom(v, d, k);
    }
  }

  /** `IntegralOfDifferences` from entry `k` on, by descending induction. */
  lemma {:induction false} IntegralFrom(v: seq<real>, d: seq<real>, k: nat)
    requires |v| >= 3 && |d| == |v| - 1 && k < |d|
    requires forall j :: 0 <= j < |d| ==> d[j] == v[j + 1] - v[j]
    ensures ReverseSums(Positions(|d|), d)[k] == v[k] - v[|v| - 1]
    decreases |d| - k
  {
    var xs := Positions(|d|);
    if k < |d| - 1 {
      IntegralFrom(v, d, k + 1);
      ReverseSumsStep(xs, d, k);
      assert xs[k + 1] - xs[k] == 1.0;
      AccumulateUnit(d[k], ReverseSums(xs, d)[k + 1]);
    } else {
      ReverseSumsSeed(xs, d);
      assert xs[k] - xs[k - 1] == 1.0;
    }
  }

  /** Differencing the integral with unit steps gives back every sample but the last. */
  lemma DifferencesOfIntegral(y: seq<real>)
    requires |y| >= 2
    ensures var r := ReverseSums(Positions(|y|), y);
      StepsNonzero(Positions(|y|), r) && DividedDifferences(Positions(|y|), r) == y[..|y| - 1]
  {
    var xs := Positions(|y|);
    var r := ReverseSums(xs, y);
    DividedDifferencesAt(xs, r);
    forall k | 0 <= k < |y| - 1
      ensures DividedDifferences(xs, r)[k] == y[k]
    {
      ReverseSumsStep(xs, y, k);
      assert xs[k + 1] == xs[k] + 1.0;
      QuotientUnit(r[k], r[k + 1], xs[k]);
      AccumulateUnit(y[k], r[k + 1]);
    }
  }
}
