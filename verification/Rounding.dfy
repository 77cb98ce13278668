/** Exchange rounding of quantities and prices (execution.py, `_round_qty` and `_round_price`). */
module Rounding {
  import opened Common

  /** Whole steps in `x`, cut towards zero as Decimal's `//` does. */
  function WholeSteps(x: real, step: real): int
    requires step > 0.0
  {
    if x >= 0.0 then (x / step).Floor else -((-x) / step).Floor
  }

  /** `k` steps. */
  function Multiple(k: int, step: real): real {
    k as real * step
  }

  function RoundQty(step: real, qty: real): real {
    if step <= 0.0 then qty else Multiple(WholeSteps(qty, step), step)
  }

  lemma MultipleOrder(k: int, n: int, step: real)
    requires step > 0.0
    ensures k <= n <==> Multiple(k, step) <= Multiple(n, step)
  {
    ScaleLess(k as real, n as real, step);
  }

  lemma MultipleBelow(k: int, x: real, step: real)
    requires step > 0.0
    ensures k as real <= x / step <==> Multiple(k, step) <= x
  {
    ScaleLess(k as real, x / step, step);
    assert (x / step) * step == x;
  }

  /** Rounding down finds the largest multiple of the step that is not above the quantity, and
      loses less than one step. */
  lemma RoundQtyIsLargestMultiple(step: real, qty: real, k: int)
    requires step > 0.0 && qty >= 0.0
    ensures 0.0 <= RoundQty(step, qty) <= qty < RoundQty(step, qty) + step
    ensures Multiple(k, step) <= qty <==> Multiple(k, step) <= RoundQty(step, qty)
  {
    ScaleLess(0.0, qty / step, step);
    var n := WholeSteps(qty, step);
    MultipleBelow(0, qty, step);
    MultipleBelow(n, qty, step);
    MultipleBelow(n + 1, qty, step);
    assert Multiple(n + 1, step) == Multiple(n, step) + step;
    MultipleBelow(k, qty, step);
    MultipleOrder(k, n, step);
    MultipleOrder(0, n, step);
  }

  /** A quantity that is a whole number of steps is kept as it is. */
  lemma RoundQtyKeepsMultiples(step: real, k: nat)
    requires step > 0.0
    ensures RoundQty(step, Multiple(k, step)) == Multiple(k, step)
  {
    MultipleOrder(0, k, step);
    RoundQtyIsLargestMultiple(step, Multiple(k, step), k);
  }

  lemma RoundQtyIdempotent(step: real, qty: real)
    requires qty >= 0.0
    ensures RoundQty(step, RoundQty(step, qty)) == RoundQty(step, qty)
  {
    if step > 0.0 {
      RoundQtyIsLargestMultiple(step, qty, 0);
      MultipleOrder(0, WholeSteps(qty, step), step);
      RoundQtyKeepsMultiples(step, WholeSteps(qty, step));
    }
  }

  lemma RoundQtyMonotone(step: real, a: real, b: real)
    requires 0.0 <= a <= b
    ensures RoundQty(step, a) <= RoundQty(step, b)
  {
    if step > 0.0 {
      RoundQtyIsLargestMultiple(step, a, 0);
      RoundQtyIsLargestMultiple(step, b, WholeSteps(a, step));
    }
  }

  datatype PriceResult = Valid(price: real) | InvalidPrice | InvalidTick

  /** Floor to the tick, then clamp to the exchange's limits (0 means no limit; without a lower
      one the tick itself is the least price). */
  function RoundPrice(tick: real, minPrice: real, maxPrice: real, price: real): PriceResult {
    if price <= 0.0 then InvalidPrice
    else if tick <= 0.0 then InvalidTick
    else
      var floored := RoundQty(tick, price);
      var raised := MaxReal(floored, if minPrice != 0.0 then minPrice else tick);
      Valid(if maxPrice != 0.0 then MinReal(raised, maxPrice) else raised)
  }

  /** A price becomes an order price exactly when price and tick are positive; it stays within the
      limits, is never above the asked price unless the lower limit forces it, and is less than
      a tick below it unless the upper limit forces it. */
  lemma RoundPriceWithinLimits(tick: real, minPrice: real, maxPrice: real, price: real)
    requires 0.0 <= minPrice && (maxPrice != 0.0 ==> minPrice <= maxPrice && tick <= maxPrice)
    ensures var r := RoundPrice(tick, minPrice, maxPrice, price);
      var least := if minPrice != 0.0 then minPrice else tick;
      && (r.Valid? <==> price > 0.0 && tick > 0.0)
      && (r.Valid? ==> r.price >= least && (maxPrice != 0.0 ==> r.price <= maxPrice))
      && (r.Valid? && price >= least ==> r.price <= price)
      && (r.Valid? && (maxPrice == 0.0 || price <= maxPrice) ==> price < r.price + tick)
  {
    if price > 0.0 && tick > 0.0 {
      RoundQtyIsLargestMultiple(tick, price, 0);
    }
  }
}
