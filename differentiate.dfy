/**
 * src/differentiate.js: `differentiateXY`, one step of divided differences
 * on the y array in place, and `differentiate`, its unit-step wrapper.
 */
module Differentiate {
  import opened FiniteDifferences

  /** `differentiateXY` for order `n <= 1`: the y array becomes its divided differences and is returned. */
  method DifferentiateXY(xs: JsArray, ys: JsArray, n: int) returns (r: JsArray)
    requires xs != ys && StepsNonzero(xs.items, ys.items) && n <= 1
    modifies ys
    ensures r == ys && ys.items == DividedDifferences(old(xs.items), old(ys.items))
  {
    DifferenceStep(xs, ys);
    r := ys;
  }

  /**
   * `differentiate` for order `n <= 1`: the x values are the indices, so
   * (by `UnitDifferences`) entry `k` is `values[k + 1] - values[k]`.
   */
  method Differentiate(values: JsArray, n: int) returns (r: JsArray)
    requires n <= 1
    modifies values
    ensures r == values
    ensures values.items == DividedDifferences(Positions(|old(values.items)|), old(values.items))
  {
    var xs := new JsArray(Positions(|values.items|));
    r := DifferentiateXY(xs, values, n);
  }
}
