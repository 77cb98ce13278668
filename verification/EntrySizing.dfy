/** From the account balance to an order quantity (sizing.py; execution.py, `setup` and
    `calc_qty`; services/entry_service.py, `_build_trade_plan` and `_validate_trade_plan`). */
module EntrySizing {
  import opened Common
  import opened Rounding

  datatype Mode = FixedMargin | RiskBased | PctBalance

  datatype Inputs = Inputs(balance: real, entry: real, stop: real, leverage: int,
                           fixedMargin: real, utilization: real, riskPct: real)

  // ---- Margin -----------------------------------------------------------------------------

  function FixedMarginOf(i: Inputs): real {
    if i.balance <= 0.0 || i.fixedMargin <= 0.0 then 0.0
    else MaxReal(0.0, MinReal(i.fixedMargin, i.balance))
  }

  function PctBalanceMargin(i: Inputs): real {
    if i.balance <= 0.0 then 0.0
    else MaxReal(0.0, MinReal(i.balance * i.riskPct, i.balance))
  }

  function RiskMargin(entry: real, distance: real, usable: real, riskPct: real, leverage: real, balance: real): real
    requires leverage > 0.0
  {
    if distance <= 0.0 || usable <= 0.0 then 0.0
    else
      var budget := MaxReal(0.0, usable * riskPct);
      if budget <= 0.0 then 0.0
      else
        var qty := budget / distance;
        if qty <= 0.0 then 0.0
        else MaxReal(0.0, MinReal(qty * entry / leverage, MinReal(usable, balance)))
  }

  function Usable(i: Inputs): real {
    MaxReal(0.0, i.balance * i.utilization)
  }

  function RiskBasedMargin(i: Inputs): real {
    if i.balance <= 0.0 || i.entry <= 0.0 then 0.0
    else RiskMargin(i.entry, AbsReal(i.entry - i.stop), Usable(i), i.riskPct, MaxInt(1, i.leverage) as real, i.balance)
  }

  function MarginToUse(mode: Mode, i: Inputs): real {
    match mode
    case RiskBased => RiskBasedMargin(i)
    case PctBalance => PctBalanceMargin(i)
    case FixedMargin => FixedMarginOf(i)
  }

  /** No mode ever asks for more than the available balance, or for a negative margin. */
  lemma MarginWithinBalance(mode: Mode, i: Inputs)
    ensures 0.0 <= MarginToUse(mode, i) <= MaxReal(0.0, i.balance)
  {
  }

  /** The two simple modes: the configured margin, or the configured share of the balance, never more
      than the balance and nothing without a balance. */
  lemma SimpleMargins(i: Inputs)
    ensures i.balance > 0.0 && i.fixedMargin > 0.0 ==>
      MarginToUse(FixedMargin, i) == (if i.fixedMargin < i.balance then i.fixedMargin else i.balance)
    ensures i.balance > 0.0 && 0.0 <= i.riskPct <= 1.0 ==> MarginToUse(PctBalance, i) == i.balance * i.riskPct
    ensures i.balance > 0.0 && i.riskPct > 1.0 ==> MarginToUse(PctBalance, i) == i.balance
    ensures i.balance <= 0.0 || i.fixedMargin <= 0.0 ==> MarginToUse(FixedMargin, i) == 0.0
    ensures i.balance <= 0.0 || i.riskPct <= 0.0 ==> MarginToUse(PctBalance, i) == 0.0
  {
    if i.balance > 0.0 {
      ScaleLess(0.0, i.riskPct, i.balance);
      ScaleLess(i.riskPct, 1.0, i.balance);
      assert i.balance * i.riskPct == i.riskPct * i.balance;
    }
  }

  lemma PositiveProducts(a: real, b: real)
    requires a > 0.0
    ensures a * b > 0.0 <==> b > 0.0
  {
    ScaleLess(b, 0.0, a);
  }

  lemma RiskMarginPositive(entry: real, distance: real, usable: real, riskPct: real, leverage: real, balance: real)
    requires leverage > 0.0 && entry > 0.0 && distance > 0.0 && usable > 0.0 && riskPct > 0.0 && balance > 0.0
    ensures RiskMargin(entry, distance, usable, riskPct, leverage, balance) > 0.0
  {
    PositiveProducts(usable, riskPct);
    var qty := usable * riskPct / distance;
    assert qty * distance == usable * riskPct;
    PositiveProducts(distance, qty);
    PositiveProducts(qty, entry);
    var margin := qty * entry / leverage;
    assert margin * leverage == qty * entry;
    PositiveProducts(leverage, margin);
  }

  /** Risk-based mode commits a margin exactly when there is a balance, a share of it to use and to
      risk, a price, and a distance to the stop. */
  lemma RiskMarginPositiveIff(i: Inputs)
    ensures MarginToUse(RiskBased, i) > 0.0 <==>
      i.balance > 0.0 && i.utilization > 0.0 && i.riskPct > 0.0 && i.entry > 0.0 && i.entry != i.stop
  {
    if i.balance > 0.0 && i.entry > 0.0 && i.entry != i.stop {
      PositiveProducts(i.balance, i.utilization);
      if i.utilization > 0.0 {
        PositiveProducts(Usable(i), i.riskPct);
        if i.riskPct > 0.0 {
          var leverage := MaxInt(1, i.leverage) as real;
          RiskMarginPositive(i.entry, AbsReal(i.entry - i.stop), Usable(i), i.riskPct, leverage, i.balance);
        }
      }
    }
  }

  // ---- Leverage ---------------------------------------------------------------------------

  /** The exchange's answer to a leverage: accepted, "-4028" (too high), or another error. */
  datatype LeverageReply = Accepted | TooHigh | OtherError

  /** The leverage the step-down ends with; None when it raises. */
  function SteppedDown(lev: int, reply: int -> LeverageReply): Option<int>
    requires lev >= 1
    decreases lev
  {
    match reply(lev)
    case Accepted => Some(lev)
    case TooHigh => if lev > 1 then SteppedDown(MaxInt(1, lev - 5), reply) else None
    case OtherError => None
  }

  /** The leverage tried `k` steps down: five less each time, and never less than one. */
  function Tried(lev: int, k: nat): int {
    MaxInt(1, lev - 5 * k)
  }

  lemma ShiftTried(lev: int, j: nat)
    requires lev >= 1
    ensures Tried(MaxInt(1, lev - 5), j) == Tried(lev, j + 1)
  {
  }

  /** The step-down ends with the first leverage in this row that the exchange does not refuse as too
      high: accepted there it succeeds, any other error there raises, and so does one that is still
      too high. */
  lemma {:induction false} SteppedDownIff(lev: int, reply: int -> LeverageReply, k: nat)
    requires lev >= 1 && (k > 0 ==> Tried(lev, k - 1) > 1)
    requires forall j: nat :: j < k ==> reply(Tried(lev, j)) == TooHigh
    requires reply(Tried(lev, k)) != TooHigh || Tried(lev, k) == 1
    ensures SteppedDown(lev, reply) == if reply(Tried(lev, k)) == Accepted then Some(Tried(lev, k)) else None
    decreases k
  {
    assert Tried(lev, 0) == lev;
    if k > 0 {
      assert lev > 1 && reply(Tried(lev, 0)) == TooHigh;
      var next := MaxInt(1, lev - 5);
      forall j: nat | j < k ensures Tried(next, j) == Tried(lev, j + 1) {
        ShiftTried(lev, j);
      }
      SteppedDownIff(next, reply, k - 1);
      ShiftTried(lev, k - 1);
    }
  }

  /** `qty` is a whole number of steps, its value is within `notional`, and one step more is not. */
  predicate Affords(qty: real, notional: real, price: real, step: real) {
    if step > 0.0 then
      qty >= 0.0 && RoundQty(step, qty) == qty && qty * price <= notional < (qty + step) * price
    else qty * price == notional
  }

  lemma FlooredAffords(notional: real, price: real, step: real)
    requires price > 0.0 && notional >= 0.0
    ensures Affords(RoundQty(step, notional / price), notional, price, step)
  {
    var full := notional / price;
    assert full * price == notional;
    assert full >= 0.0 by { ScaleLess(0.0, full, price); }
    if step > 0.0 {
      RoundQtyIsLargestMultiple(step, full, 0);
      RoundQtyIdempotent(step, full);
      var qty := RoundQty(step, full);
      ScaleLess(qty, full, price);
      ScaleLess(qty + step, full, price);
    }
  }

  /** `calc_qty` */
  function OrderQty(capital: real, leverage: int, price: real, step: real): real
    requires price != 0.0
  {
    RoundQty(step, capital * leverage as real / price)
  }

  class FuturesExecutor {
    var leverage: int
    const stepSize: real
    const paper: bool

    constructor (leverage: int, stepSize: real, paper: bool)
      ensures this.leverage == leverage && this.stepSize == stepSize && this.paper == paper
    {
      this.leverage, this.stepSize, this.paper := leverage, stepSize, paper;
    }

    /** The step-down ends, never raises the leverage, and leaves it untouched when it fails. */
    method Setup(reply: int -> LeverageReply) returns (raised: bool)
      modifies this
      ensures paper || old(leverage) < 1 ==> !raised && leverage == old(leverage)
      ensures !paper && old(leverage) >= 1 ==> raised == SteppedDown(old(leverage), reply).None?
      ensures !paper && old(leverage) >= 1 && !raised ==>
        && Some(leverage) == SteppedDown(old(leverage), reply)
        && 1 <= leverage <= old(leverage) && reply(leverage) == Accepted
      ensures raised ==> leverage == old(leverage)
    {
      raised := false;
      if paper {
        return;
      }
      var lev := leverage;
      while lev >= 1
        invariant leverage == old(leverage) && lev <= leverage
        invariant leverage >= 1 ==> lev >= 1 && SteppedDown(lev, reply) == SteppedDown(leverage, reply)
        decreases lev
      {
        match reply(lev) {
          case Accepted =>
            leverage := lev;
            return;
          case TooHigh =>
            if lev > 1 {
              lev := MaxInt(1, lev - 5);
            } else {
              return true;
            }
          case OtherError =>
            return true;
        }
      }
    }

    /** What the margin buys: the most whole steps whose value at `price` is within margin times
        leverage; without a step size, exactly that value. */
    method CalcQty(capital: real, price: real) returns (qty: real)
      requires price != 0.0
      ensures qty == OrderQty(capital, leverage, price, stepSize)
      ensures price > 0.0 && capital * leverage as real >= 0.0 ==>
        Affords(qty, capital * leverage as real, price, stepSize)
    {
      var notional := capital * leverage as real;
      qty := RoundQty(stepSize, notional / price);
      if price > 0.0 && notional >= 0.0 {
        FlooredAffords(notional, price, stepSize);
      }
    }
  }

  lemma AffordedIsFloored(step: real, qty: real, notional: real, price: real)
    requires Affords(qty, notional, price, step)
    ensures RoundQty(step, qty) == qty
  {
  }

  /** An order quantity, floored once more, is what the capital affords. */
  lemma OrderAffords(capital: real, leverage: int, price: real, step: real, notional: real, qty: real)
    requires price > 0.0 && notional == capital * leverage as real && notional >= 0.0
    requires qty == OrderQty(capital, leverage, price, step)
    ensures Affords(qty, notional, price, step) && RoundQty(step, qty) == qty
  {
    FlooredAffords(notional, price, step);
    AffordedIsFloored(step, qty, notional, price);
  }

  // ---- The chain --------------------------------------------------------------------------

  /** Margin converted at the executor's leverage and floored to the step twice. */
  function QtyForMargin(margin: real, executorLeverage: int, entry: real, step: real): real
    requires entry != 0.0
  {
    RoundQty(step, OrderQty(margin, executorLeverage, entry, step))
  }

  /** The quantity `_build_trade_plan` ends with. */
  function PlannedQty(mode: Mode, i: Inputs, executorLeverage: int, step: real): real
    requires i.entry != 0.0
  {
    QtyForMargin(MarginToUse(mode, i), executorLeverage, i.entry, step)
  }

  /** What the position loses when it is closed at its stop. */
  function Loss(qty: real, entry: real, stop: real): real {
    qty * AbsReal(entry - stop)
  }

  function RiskBudget(i: Inputs): real {
    i.balance * i.utilization * i.riskPct
  }

  lemma RoundQtyNeverRaises(step: real, qty: real)
    requires qty >= 0.0
    ensures 0.0 <= RoundQty(step, qty) <= qty
  {
    if step > 0.0 {
      RoundQtyIsLargestMultiple(step, qty, 0);
    }
  }

  lemma DivideBound(x: real, qty: real, entry: real)
    requires entry > 0.0 && 0.0 <= x <= qty * entry
    ensures 0.0 <= x / entry <= qty
  {
    var y := x / entry;
    assert y * entry == x;
    ScaleLess(y, qty, entry);
    ScaleLess(0.0, y, entry);
  }

  /** What the leverage step-down does to the converted quantity. */
  lemma ConversionShrinks(qty: real, entry: real, planned: int, actual: int, margin: real)
    requires qty >= 0.0 && entry > 0.0 && 1 <= actual <= planned
    requires 0.0 <= margin <= qty * entry / planned as real
    ensures 0.0 <= margin * actual as real / entry <= qty
  {
    var p, a := planned as real, actual as real;
    assert margin * p <= qty * entry by {
      assert (qty * entry / p) * p == qty * entry;
      assert 0.0 <= (qty * entry / p - margin) * p;
    }
    assert margin * a <= margin * p by {
      assert 0.0 <= margin * (p - a);
    }
    assert 0.0 <= margin * a <= qty * entry;
    DivideBound(margin * a, qty, entry);
  }

  /** The smaller of the two caps of the margin formula. */
  function Cap(i: Inputs): real {
    MinReal(Usable(i), i.balance)
  }

  lemma PositiveGuards(entry: real, distance: real, usable: real, riskPct: real, leverage: real, balance: real)
    requires leverage > 0.0 && RiskMargin(entry, distance, usable, riskPct, leverage, balance) > 0.0
    ensures distance > 0.0 && usable > 0.0
  {
  }

  /** All guards have passed, so nothing was cut at zero. */
  lemma PositiveRiskMargin(entry: real, distance: real, usable: real, riskPct: real, leverage: real, balance: real,
                           qty: real)
    requires leverage > 0.0 && RiskMargin(entry, distance, usable, riskPct, leverage, balance) > 0.0
    requires distance > 0.0 && qty == usable * riskPct / distance
    ensures qty > 0.0
    ensures RiskMargin(entry, distance, usable, riskPct, leverage, balance) ==
      MinReal(qty * entry / leverage, MinReal(usable, balance))
  {
  }

  lemma PositiveInputs(i: Inputs)
    requires RiskBasedMargin(i) > 0.0 && i.leverage >= 1
    ensures i.entry > 0.0 && i.entry != i.stop && Usable(i) > 0.0
  {
    PositiveGuards(i.entry, AbsReal(i.entry - i.stop), Usable(i), i.riskPct, i.leverage as real, i.balance);
  }

  /** A positive risk-based margin is what the full quantity needs, cut at the caps. */
  lemma PositiveMargin(i: Inputs, full: real)
    requires RiskBasedMargin(i) > 0.0 && i.leverage >= 1
    requires i.entry != i.stop && full == Usable(i) * i.riskPct / AbsReal(i.entry - i.stop)
    ensures full > 0.0
    ensures RiskBasedMargin(i) == MinReal(full * i.entry / i.leverage as real, Cap(i))
  {
    PositiveRiskMargin(i.entry, AbsReal(i.entry - i.stop), Usable(i), i.riskPct, i.leverage as real, i.balance, full);
  }

  /** The full quantity is the one that loses the whole budget at the stop. */
  lemma FullLosesBudget(i: Inputs, full: real)
    requires Usable(i) > 0.0 && i.entry != i.stop
    requires full == Usable(i) * i.riskPct / AbsReal(i.entry - i.stop)
    ensures Loss(full, i.entry, i.stop) == RiskBudget(i)
  {
    assert Usable(i) == i.balance * i.utilization;
  }

  lemma FlooredTwice(margin: real, full: real, entry: real, planned: int, actual: int, step: real)
    requires full >= 0.0 && entry > 0.0 && 1 <= actual <= planned
    requires 0.0 <= margin <= full * entry / planned as real
    ensures 0.0 <= QtyForMargin(margin, actual, entry, step) <= full
  {
    ConversionShrinks(full, entry, planned, actual, margin);
    var converted := margin * actual as real / entry;
    RoundQtyNeverRaises(step, converted);
    RoundQtyNeverRaises(step, RoundQty(step, converted));
  }

  lemma QuotientTimes(x: real, y: real)
    requires y != 0.0
    ensures (x / y) * y == x
  {
  }

  lemma SameLeverageConverts(margin: real, full: real, entry: real, leverage: int)
    requires entry > 0.0 && leverage >= 1 && margin == full * entry / leverage as real
    ensures margin * leverage as real / entry == full
  {
    var l, notional := leverage as real, full * entry;
    QuotientTimes(notional, l);
    assert margin * l == notional;
    assert notional / entry == full;
  }

  lemma FlooredToOneStep(margin: real, full: real, entry: real, leverage: int, step: real)
    requires step > 0.0 && full >= 0.0 && entry > 0.0
    requires margin * leverage as real / entry == full
    ensures full - step < QtyForMargin(margin, leverage, entry, step) <= full
  {
    RoundQtyIsLargestMultiple(step, full, 0);
    RoundQtyIdempotent(step, full);
  }

  lemma LossGrows(a: real, b: real, entry: real, stop: real)
    requires entry != stop
    ensures a <= b <==> Loss(a, entry, stop) <= Loss(b, entry, stop)
  {
    ScaleLess(a, b, AbsReal(entry - stop));
  }

  /** Risk-based sizing, end to end: whatever leverage at or below the configured one the executor
      ended with, the loss at the stop is within balance * utilization * risk pct. */
  lemma LossAtStopWithinBudget(i: Inputs, executorLeverage: int, step: real)
    requires i.entry > 0.0 && 1 <= executorLeverage <= i.leverage
    requires MarginToUse(RiskBased, i) > 0.0
    ensures PlannedQty(RiskBased, i, executorLeverage, step) >= 0.0
    ensures Loss(PlannedQty(RiskBased, i, executorLeverage, step), i.entry, i.stop) <= RiskBudget(i)
  {
    PositiveInputs(i);
    var full := Usable(i) * i.riskPct / AbsReal(i.entry - i.stop);
    PositiveMargin(i, full);
    FlooredTwice(RiskBasedMargin(i), full, i.entry, i.leverage, executorLeverage, step);
    LossGrows(PlannedQty(RiskBased, i, executorLeverage, step), full, i.entry, i.stop);
    FullLosesBudget(i, full);
  }

  /** The budget is used up to one step: with a risk-based margin that is positive and below both
      caps, at the configured leverage, one step more would lose more than the budget. */
  lemma BudgetUsedUpToOneStep(i: Inputs, step: real)
    requires i.entry != 0.0 && i.leverage >= 1 && step > 0.0
    requires 0.0 < MarginToUse(RiskBased, i) < Cap(i)
    ensures var qty := PlannedQty(RiskBased, i, i.leverage, step);
      Loss(qty, i.entry, i.stop) <= RiskBudget(i) < Loss(qty + step, i.entry, i.stop)
  {
    PositiveInputs(i);
    var full := Usable(i) * i.riskPct / AbsReal(i.entry - i.stop);
    PositiveMargin(i, full);
    SameLeverageConverts(RiskBasedMargin(i), full, i.entry, i.leverage);
    FlooredToOneStep(RiskBasedMargin(i), full, i.entry, i.leverage, step);
    LossGrows(PlannedQty(RiskBased, i, i.leverage, step), full, i.entry, i.stop);
    LossGrows(PlannedQty(RiskBased, i, i.leverage, step) + step, full, i.entry, i.stop);
    FullLosesBudget(i, full);
  }

  // ---- The liquidation guard --------------------------------------------------------------

  datatype Verdict = Ok | StopTooClose | SizeInvalid

  datatype Plan = Plan(side: Side, entry: real, stop: real, margin: real, qty: real, minQty: real, minNotional: real)

  predicate EntrySizeValid(qty: real, price: real, minQty: real, minNotional: real) {
    qty > 0.0 && price > 0.0 && !(minQty > 0.0 && qty < minQty) && !(minNotional > 0.0 && qty * price < minNotional)
  }

  /** `_validate_trade_plan`; `fixedMargin` is the configured margin, used in fixed-margin mode. */
  function Validate(mode: Mode, fixedMargin: real, antiLiqR: real, p: Plan): Verdict {
    var reference := if mode == FixedMargin then fixedMargin else p.margin;
    var guarded := antiLiqR > 0.0 && reference > 0.0 && p.qty > 0.0;
    var minDistance := if guarded then reference * antiLiqR / p.qty else 0.0;
    if guarded && (if p.side == Buy then p.stop > p.entry - minDistance else p.stop < p.entry + minDistance)
    then StopTooClose
    else if !EntrySizeValid(p.qty, p.entry, p.minQty, p.minNotional) then SizeInvalid
    else Ok
  }

  /** Distance from the entry to the stop, counted towards the losing side. */
  function StopDistance(p: Plan): real {
    if p.side == Buy then p.entry - p.stop else p.stop - p.entry
  }

  lemma BelowQuotient(x: real, total: real, qty: real)
    requires qty > 0.0
    ensures x < total / qty <==> qty * x < total
  {
    QuotientTimes(total, qty);
    ScaleLess(total / qty, x, qty);
    assert x * qty == qty * x;
  }

  /** The guard refuses a plan exactly when the loss at its stop is smaller than margin times
      `anti_liq_trigger_r`. */
  lemma GuardComparesLossWithMargin(mode: Mode, fixedMargin: real, antiLiqR: real, p: Plan)
    requires var reference := if mode == FixedMargin then fixedMargin else p.margin;
      antiLiqR > 0.0 && reference > 0.0 && p.qty > 0.0
    ensures var reference := if mode == FixedMargin then fixedMargin else p.margin;
      Validate(mode, fixedMargin, antiLiqR, p) == StopTooClose <==> p.qty * StopDistance(p) < reference * antiLiqR
  {
    var reference := if mode == FixedMargin then fixedMargin else p.margin;
    BelowQuotient(StopDistance(p), reference * antiLiqR, p.qty);
  }

  lemma LossCountsEitherWay(p: Plan)
    requires p.qty > 0.0
    ensures p.qty * StopDistance(p) <= Loss(p.qty, p.entry, p.stop)
  {
    ScaleLess(StopDistance(p), AbsReal(p.entry - p.stop), p.qty);
    assert StopDistance(p) * p.qty == p.qty * StopDistance(p);
    assert AbsReal(p.entry - p.stop) * p.qty == p.qty * AbsReal(p.entry - p.stop);
  }

  lemma GuardedMarginWithinLoss(antiLiqR: real, p: Plan, fixedMargin: real)
    requires antiLiqR > 0.0 && p.margin > 0.0 && Validate(RiskBased, fixedMargin, antiLiqR, p) == Ok
    ensures p.margin * antiLiqR <= Loss(p.qty, p.entry, p.stop)
  {
    GuardComparesLossWithMargin(RiskBased, fixedMargin, antiLiqR, p);
    LossCountsEitherWay(p);
  }

  /** The plan carries what sizing computed from these inputs. */
  predicate Sized(i: Inputs, executorLeverage: int, step: real, p: Plan)
    requires i.entry != 0.0
  {
    && p.entry == i.entry && p.stop == i.stop
    && p.margin == MarginToUse(RiskBased, i)
    && p.qty == PlannedQty(RiskBased, i, executorLeverage, step)
  }

  /** A risk-based plan that passes the guard keeps margin times `anti_liq_trigger_r` within the
      same risk budget as the loss at its stop. */
  lemma GuardedMarginWithinBudget(i: Inputs, executorLeverage: int, step: real, antiLiqR: real, p: Plan)
    requires i.entry > 0.0 && 1 <= executorLeverage <= i.leverage && antiLiqR > 0.0
    requires Sized(i, executorLeverage, step, p) && p.margin > 0.0
    requires Validate(RiskBased, i.fixedMargin, antiLiqR, p) == Ok
    ensures p.margin * antiLiqR <= Loss(p.qty, p.entry, p.stop) <= RiskBudget(i)
  {
    LossAtStopWithinBudget(i, executorLeverage, step);
    GuardedMarginWithinLoss(antiLiqR, p, i.fixedMargin);
  }

  /** A plan passes exactly when its quantity and entry are positive, it meets both exchange minimums
      that are set, and, with the guard on, the loss at its stop covers the guarded margin. */
  lemma PlanIsOkIff(mode: Mode, fixedMargin: real, antiLiqR: real, p: Plan)
    ensures var reference := if mode == FixedMargin then fixedMargin else p.margin;
      Validate(mode, fixedMargin, antiLiqR, p) == Ok <==>
        && p.qty > 0.0 && p.entry > 0.0
        && (p.minQty > 0.0 ==> p.qty >= p.minQty)
        && (p.minNotional > 0.0 ==> p.qty * p.entry >= p.minNotional)
        && (antiLiqR > 0.0 && reference > 0.0 ==> p.qty * StopDistance(p) >= reference * antiLiqR)
  {
    if p.qty > 0.0 && antiLiqR > 0.0 && (if mode == FixedMargin then fixedMargin else p.margin) > 0.0 {
      GuardComparesLossWithMargin(mode, fixedMargin, antiLiqR, p);
    }
  }
}
