/**
 * src/integrate.js: `integrateXY`, one step of the reverse running sum on
 * the y array in place, and `integrate`, its unit-step wrapper.
 */
module Integrate {
  import opened FiniteDifferences

  /** `integrateXY` for order `n <= 1`: the y array becomes its reverse sums and is returned; its length is kept. */
  method IntegrateXY(xs: JsArray, ys: JsArray, n: int) returns (r: JsArray)
    requires xs != ys && Span(xs.items, ys.items) >= 1 && n <= 1
    modifies ys
    ensures r == ys && ys.items == ReverseSums(old(xs.items), old(ys.items))
  {
    ReverseSumStep(xs, ys);
    r := ys;
  }

  /** `integrate` for order `n <= 1`: `integrateXY` over the indices. */
  method Integrate(values: JsArray, n: int) returns (r: JsArray)
    requires |values.items| >= 2 && n <= 1
    modifies values
    ensures r == values && values.items == ReverseSums(Positions(|old(values.items)|), old(values.items))
  {
    var xs := new JsArray(Positions(|values.items|));
    r := IntegrateXY(xs, values, n);
  }
}
