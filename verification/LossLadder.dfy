/** The loss-scaling ladder (monitor_scaling.py, `evaluate_loss_scaling`): three levels that add
    1, 2 and 4 times the initial margin to a losing position. */
module LossLadder {
  import opened Common
  import opened Rounding
  import opened EntrySizing

  const MAX_ATTEMPTS := 5

  datatype Level = L1 | L2 | L3

  datatype Rung = Rung(done: bool, attempts: nat, nextTry: real)

  datatype Settings = Settings(enabled: bool, side: Side, sl: real, margin: real, leverage: int, step: real,
                               minQty: real, minNotional: real, tpRr: real, paper: bool)

  /** The level state and the trade state. */
  datatype State = State(l1: Rung, l2: Rung, l3: Rung, entry: real, qty: real, tp: real, risk: real)

  datatype Order = OrderError | Executed(filled: real, avg: real)

  /** What one call sees: the clock, whether the frame is long enough, the mark price, the last
      close, the market order's reply, which of three protection replacements succeeds, and
      whether the monitor's close would be accepted if the call asks to close all. */
  datatype Call = Call(now: real, frameReady: bool, mark: Option<real>, lastClose: real, order: Order,
                       replaced: nat -> bool, closeWorks: bool)

  datatype Outcome =
    | Idle
    | CloseAll
    | Skipped(level: Level)                              // the order would be too small
    | Deferred(level: Level)                             // the order failed, try again later
    | Untracked(level: Level, filled: real, avg: real)   // bought, but nothing was recorded
    | Unprotected(level: Level, filled: real, avg: real) // bought, protections failed: close all
    | Completed(level: Level, filled: real, avg: real)

  function RungOf(s: State, l: Level): Rung {
    match l
    case L1 => s.l1
    case L2 => s.l2
    case L3 => s.l3
  }

  function WithRung(s: State, l: Level, r: Rung): State {
    match l
    case L1 => s.(l1 := r)
    case L2 => s.(l2 := r)
    case L3 => s.(l3 := r)
  }

  function Share(l: Level): real {
    match l
    case L1 => 1.0
    case L2 => 2.0
    case L3 => 4.0
  }

  function FloatingLoss(cfg: Settings, s: State, mark: real): real {
    var pnl := (mark - s.entry) * s.qty;
    var signed := if cfg.side == Sell then -pnl else pnl;
    AbsReal(MinReal(signed, 0.0))
  }

  predicate StructureBroken(cfg: Settings, mark: real, lastClose: real) {
    if cfg.side == Buy then mark <= cfg.sl || lastClose <= cfg.sl else mark >= cfg.sl || lastClose >= cfg.sl
  }

  /** The level whose turn it is, if any. */
  function Due(cfg: Settings, s: State, now: real, loss: real): Option<Level> {
    if !s.l1.done && now >= s.l1.nextTry && loss >= 0.5 * cfg.margin then Some(L1)
    else if s.l1.done && !s.l2.done && now >= s.l2.nextTry && loss >= 1.0 * cfg.margin then Some(L2)
    else if s.l2.done && !s.l3.done && now >= s.l3.nextTry && loss >= 2.0 * cfg.margin then Some(L3)
    else None
  }

  function Pow2(n: nat): nat {
    if n == 0 then 1 else 2 * Pow2(n - 1)
  }

  function DeferRung(r: Rung, now: real): Rung {
    var attempts := r.attempts + 1;
    if attempts >= MAX_ATTEMPTS then Rung(true, attempts, r.nextTry)
    else Rung(r.done, attempts, now + MinInt(60, Pow2(attempts)) as real)
  }

  predicate Protected(replaced: nat -> bool) {
    replaced(1) || replaced(2) || replaced(3)
  }

  /** Average entry after `filled` more at `avg`, over the rounded new quantity. */
  function BlendedEntry(s: State, filled: real, avg: real, newQty: real): real
    requires newQty != 0.0
  {
    (s.entry * s.qty + avg * filled) / newQty
  }

  /** The take-profit of the new average. */
  function Target(cfg: Settings, entry: real, risk: real): real {
    var rr := MaxReal(cfg.tpRr, 1.8);
    if cfg.side == Buy then entry + rr * risk else entry - rr * risk
  }

  /** A fill of the due level: recorded, untracked, or left without protections. */
  function Absorbed(cfg: Settings, s: State, c: Call, l: Level, filled: real, avg: real): (State, Outcome) {
    var newQty := RoundQty(cfg.step, s.qty + filled);
    if newQty <= 0.0 then (s, Untracked(l, filled, avg))
    else
      var newEntry := BlendedEntry(s, filled, avg, newQty);
      var newRisk := AbsReal(newEntry - cfg.sl);
      if newRisk <= 0.0 then (s, Untracked(l, filled, avg))
      else if !Protected(c.replaced) then (s, Unprotected(l, filled, avg))
      else
        (WithRung(s, l, Rung(true, RungOf(s, l).attempts, 0.0)).(
           entry := newEntry, qty := newQty, tp := Target(cfg, newEntry, newRisk), risk := newRisk),
         Completed(l, filled, avg))
  }

  function Bought(cfg: Settings, c: Call, qty: real, mark: real): Order {
    if cfg.paper then Executed(qty, mark) else c.order
  }

  function Buyable(cfg: Settings, capital: real, mark: real): real
    requires mark != 0.0
  {
    RoundQty(cfg.step, OrderQty(capital, cfg.leverage, mark, cfg.step))
  }

  function AddQty(cfg: Settings, l: Level, mark: real): real
    requires mark != 0.0
  {
    Buyable(cfg, Share(l) * cfg.margin, mark)
  }

  predicate TooSmall(cfg: Settings, qty: real, mark: real) {
    qty <= 0.0 || (cfg.minQty > 0.0 && qty < cfg.minQty) || (cfg.minNotional > 0.0 && qty * mark < cfg.minNotional)
  }

  /** What becomes of the due level once its order is known. */
  function Settled(cfg: Settings, s: State, c: Call, l: Level, tooSmall: bool, order: Order, mark: real)
    : (State, Outcome)
  {
    if tooSmall then (WithRung(s, l, RungOf(s, l).(done := true)), Skipped(l))
    else if order.OrderError? || order.filled <= 0.0 then
      (WithRung(s, l, DeferRung(RungOf(s, l), c.now)), Deferred(l))
    else Absorbed(cfg, s, c, l, order.filled, if order.avg > 0.0 then order.avg else mark)
  }

  function Climb(cfg: Settings, s: State, c: Call, l: Level, mark: real): (State, Outcome)
    requires mark != 0.0
  {
    var qty := AddQty(cfg, l, mark);
    Settled(cfg, s, c, l, TooSmall(cfg, qty, mark), Bought(cfg, c, qty, mark), mark)
  }

  predicate WellFormed(c: Call) {
    c.mark.Some? ==> c.mark.value > 0.0
  }

  function Evaluated(cfg: Settings, s: State, c: Call): (State, Outcome)
    requires WellFormed(c)
  {
    if !cfg.enabled || (s.l1.done && s.l2.done && s.l3.done) || !c.frameReady || c.mark.None? then (s, Idle)
    else
      var mark := c.mark.value;
      if StructureBroken(cfg, mark, c.lastClose) then (s, CloseAll)
      else if cfg.margin <= 0.0 then (s, Idle)
      else
        var due := Due(cfg, s, c.now, FloatingLoss(cfg, s, mark));
        if due.None? then (s, Idle) else Climb(cfg, s, c, due.value, mark)
  }

  function Opened(entry: real, qty: real, tp: real, risk: real): State {
    State(Rung(false, 0, 0.0), Rung(false, 0, 0.0), Rung(false, 0, 0.0), entry, qty, tp, risk)
  }

  class LossScaler {
    const settings: Settings
    var l1: Rung
    var l2: Rung
    var l3: Rung
    var entryPrice: real
    var qty: real
    var tp: real
    var riskDistance: real

    function Now(): State
      reads this
    {
      State(l1, l2, l3, entryPrice, qty, tp, riskDistance)
    }

    constructor (settings: Settings, entryPrice: real, qty: real, tp: real, riskDistance: real)
      ensures this.settings == settings
      ensures Now() == Opened(entryPrice, qty, tp, riskDistance)
    {
      this.settings := settings;
      l1, l2, l3 := Rung(false, 0, 0.0), Rung(false, 0, 0.0), Rung(false, 0, 0.0);
      this.entryPrice, this.qty, this.tp, this.riskDistance := entryPrice, qty, tp, riskDistance;
    }

    method SetRung(l: Level, r: Rung)
      modifies this
      ensures Now() == WithRung(old(Now()), l, r)
    {
      match l {
        case L1 => l1 := r;
        case L2 => l2 := r;
        case L3 => l3 := r;
      }
    }

    /** `_defer_level` */
    method DeferLevel(l: Level, now: real)
      modifies this
      ensures Now() == WithRung(old(Now()), l, DeferRung(RungOf(old(Now()), l), now))
    {
      var r := match l case L1 => l1 case L2 => l2 case L3 => l3;
      var attempts := r.attempts + 1;
      if attempts >= MAX_ATTEMPTS {
        SetRung(l, Rung(true, attempts, r.nextTry));
        return;
      }
      var delay := MinInt(60, Pow2(attempts));
      SetRung(l, Rung(r.done, attempts, now + delay as real));
    }

    /** Up to three tries. */
    method ReplaceProtections(replaced: nat -> bool) returns (placed: bool)
      ensures placed == Protected(replaced)
    {
      placed := false;
      for attempt := 1 to 4
        invariant !placed && forall a: nat :: 1 <= a < attempt ==> !replaced(a)
      {
        if replaced(attempt) {
          placed := true;
          break;
        }
      }
    }

    /** Books a fill: new average, protections in up to three tries, then the level is done. */
    method Absorb(c: Call, l: Level, filled: real, avg: real) returns (outcome: Outcome)
      modifies this
      ensures (Now(), outcome) == Absorbed(settings, old(Now()), c, l, filled, avg)
    {
      var newQty := RoundQty(settings.step, qty + filled);
      if newQty <= 0.0 {
        return Untracked(l, filled, avg);
      }
      var newEntry := BlendedEntry(Now(), filled, avg, newQty);
      var newRisk := AbsReal(newEntry - settings.sl);
      if newRisk <= 0.0 {
        return Untracked(l, filled, avg);
      }
      var newTp := Target(settings, newEntry, newRisk);
      var placed := ReplaceProtections(c.replaced);
      if !placed {
        return Unprotected(l, filled, avg);
      }
      var r := match l case L1 => l1 case L2 => l2 case L3 => l3;
      SetRung(l, Rung(true, r.attempts, 0.0));
      entryPrice, qty, tp, riskDistance := newEntry, newQty, newTp, newRisk;
      outcome := Completed(l, filled, avg);
    }

    method EvaluateLossScaling(c: Call) returns (outcome: Outcome)
      requires WellFormed(c)
      modifies this
      ensures (Now(), outcome) == Evaluated(settings, old(Now()), c)
    {
      if !settings.enabled || (l1.done && l2.done && l3.done) || !c.frameReady || c.mark.None? {
        return Idle;
      }
      var mark := c.mark.value;
      if settings.side == Buy {
        if mark <= settings.sl || !(c.lastClose > settings.sl) { return CloseAll; }
      } else {
        if mark >= settings.sl || !(c.lastClose < settings.sl) { return CloseAll; }
      }
      if settings.margin <= 0.0 {
        return Idle;
      }
      var due := Due(settings, Now(), c.now, FloatingLoss(settings, Now(), mark));
      if due.None? {
        return Idle;
      }
      var l := due.value;
      var addQty := AddQty(settings, l, mark);
      if TooSmall(settings, addQty, mark) {
        var r := match l case L1 => l1 case L2 => l2 case L3 => l3;
        SetRung(l, r.(done := true));
        return Skipped(l);
      }
      var order := if settings.paper then Executed(addQty, mark) else c.order;
      if order.OrderError? || order.filled <= 0.0 {
        DeferLevel(l, c.now);
        return Deferred(l);
      }
      outcome := Absorb(c, l, order.filled, if order.avg > 0.0 then order.avg else mark);
    }
  }

  // ---- Runs -------------------------------------------------------------------------------

  function After(cfg: Settings, s: State, calls: seq<Call>): State
    requires forall c :: c in calls ==> WellFormed(c)
  {
    if calls == [] then s else Evaluated(cfg, After(cfg, s, calls[..|calls| - 1]), calls[|calls| - 1]).0
  }

  /** What each call of a run led to. */
  function Outcomes(cfg: Settings, s: State, calls: seq<Call>): (outcomes: seq<Outcome>)
    requires forall c :: c in calls ==> WellFormed(c)
    ensures |outcomes| == |calls|
  {
    if calls == [] then []
    else
      var before := calls[..|calls| - 1];
      Outcomes(cfg, s, before) + [Evaluated(cfg, After(cfg, s, before), calls[|calls| - 1]).1]
  }

  function Completions(outcomes: seq<Outcome>, l: Level): nat {
    if outcomes == [] then 0
    else
      var last := outcomes[|outcomes| - 1];
      Completions(outcomes[..|outcomes| - 1], l) + (if last.Completed? && last.level == l then 1 else 0)
  }

  function Deferrals(outcomes: seq<Outcome>, l: Level): nat {
    if outcomes == [] then 0
    else
      var last := outcomes[|outcomes| - 1];
      Deferrals(outcomes[..|outcomes| - 1], l) + (if last.Deferred? && last.level == l then 1 else 0)
  }

  function Paid(o: Outcome): real {
    if o.Completed? then o.avg * o.filled else 0.0
  }

  /** Cost of everything the completed levels added. */
  function AddedCost(outcomes: seq<Outcome>): real {
    if outcomes == [] then 0.0
    else
      var last := outcomes[|outcomes| - 1];
      AddedCost(outcomes[..|outcomes| - 1]) + Paid(last)
  }

  /** Margin of the completed levels, in initial margins. */
  function CompletedShares(outcomes: seq<Outcome>): real {
    if outcomes == [] then 0.0
    else
      var last := outcomes[|outcomes| - 1];
      CompletedShares(outcomes[..|outcomes| - 1]) + (if last.Completed? then Share(last.level) else 0.0)
  }

  /** The ladder is climbed in order, and attempts stop at five. */
  predicate Orderly(s: State) {
    && (s.l3.done ==> s.l2.done) && (s.l2.done ==> s.l1.done)
    && (s.l1.attempts < MAX_ATTEMPTS || (s.l1.attempts == MAX_ATTEMPTS && s.l1.done))
    && (s.l2.attempts < MAX_ATTEMPTS || (s.l2.attempts == MAX_ATTEMPTS && s.l2.done))
    && (s.l3.attempts < MAX_ATTEMPTS || (s.l3.attempts == MAX_ATTEMPTS && s.l3.done))
  }

  /** The change of one rung between two states, with the outcome of the call in between. */
  predicate RungMoves(s: State, s': State, o: Outcome, l: Level) {
    && (RungOf(s, l).done ==> RungOf(s', l).done)
    && (o.Completed? && o.level == l ==> !RungOf(s, l).done && RungOf(s', l).done)
    && RungOf(s', l).attempts == RungOf(s, l).attempts + (if o.Deferred? && o.level == l then 1 else 0)
  }

  lemma SettledIsOrderly(cfg: Settings, s: State, c: Call, due: Level, tooSmall: bool, order: Order,
                         mark: real, l: Level)
    requires Orderly(s) && !RungOf(s, due).done
    requires (due == L2 ==> s.l1.done) && (due == L3 ==> s.l2.done)
    ensures var (s', o) := Settled(cfg, s, c, due, tooSmall, order, mark); Orderly(s') && RungMoves(s, s', o, l)
  {
  }

  /** One call: only the due level's rung can change, only an open level is climbed, completing
      it closes it, and a deferral uses one attempt. */
  lemma CallIsOrderly(cfg: Settings, s: State, c: Call, l: Level)
    requires WellFormed(c) && Orderly(s)
    ensures var (s', o) := Evaluated(cfg, s, c); Orderly(s') && RungMoves(s, s', o, l)
  {
    if c.mark.Some? {
      var mark := c.mark.value;
      var due := Due(cfg, s, c.now, FloatingLoss(cfg, s, mark));
      if due.Some? {
        var qty := AddQty(cfg, due.value, mark);
        SettledIsOrderly(cfg, s, c, due.value, TooSmall(cfg, qty, mark), Bought(cfg, c, qty, mark), mark, l);
      }
    }
  }

  /** Floating loss, in initial margins, from which a level is due. */
  function Threshold(l: Level): real {
    match l
    case L1 => 0.5
    case L2 => 1.0
    case L3 => 2.0
  }

  /** Every fill was bought for the one level whose turn it is, at or beyond its loss threshold,
      not before its retry time, and with the stop's structure intact. */
  lemma FillsOnlyWhenDue(cfg: Settings, s: State, c: Call)
    requires WellFormed(c)
    ensures var (s', o) := Evaluated(cfg, s, c);
      o.Completed? || o.Unprotected? || o.Untracked? ==>
        && c.mark.Some? && !StructureBroken(cfg, c.mark.value, c.lastClose)
        && !RungOf(s, o.level).done && c.now >= RungOf(s, o.level).nextTry
        && (o.level == L2 ==> s.l1.done) && (o.level == L3 ==> s.l2.done)
        && FloatingLoss(cfg, s, c.mark.value) >= Threshold(o.level) * cfg.margin
        && o.filled > 0.0 && o.avg > 0.0
  {
  }

  function Cost(s: State): real {
    s.entry * s.qty
  }

  lemma AbsorbedConservesCost(cfg: Settings, s: State, c: Call, l: Level, filled: real, avg: real)
    ensures var (s', o) := Absorbed(cfg, s, c, l, filled, avg);
      Cost(s') == Cost(s) + (if o.Completed? then avg * filled else 0.0)
  {
    var newQty := RoundQty(cfg.step, s.qty + filled);
    if newQty > 0.0 {
      QuotientTimes(s.entry * s.qty + avg * filled, newQty);
    }
  }

  lemma NoFillConservesCost(cfg: Settings, s: State, c: Call, l: Level, tooSmall: bool, order: Order, mark: real)
    requires tooSmall || order.OrderError? || order.filled <= 0.0
    ensures var (s', o) := Settled(cfg, s, c, l, tooSmall, order, mark); Cost(s') == Cost(s) + Paid(o)
  {
  }

  lemma FillConservesCost(cfg: Settings, s: State, c: Call, l: Level, order: Order, mark: real, avg: real)
    requires order.Executed? && order.filled > 0.0 && avg == if order.avg > 0.0 then order.avg else mark
    ensures var (s', o) := Settled(cfg, s, c, l, false, order, mark); Cost(s') == Cost(s) + Paid(o)
  {
    assert Settled(cfg, s, c, l, false, order, mark) == Absorbed(cfg, s, c, l, order.filled, avg);
    AbsorbedConservesCost(cfg, s, c, l, order.filled, avg);
  }

  lemma SettledConservesCost(cfg: Settings, s: State, c: Call, l: Level, tooSmall: bool, order: Order, mark: real)
    ensures var (s', o) := Settled(cfg, s, c, l, tooSmall, order, mark); Cost(s') == Cost(s) + Paid(o)
  {
    if !tooSmall && order.Executed? && order.filled > 0.0 {
      FillConservesCost(cfg, s, c, l, order, mark, if order.avg > 0.0 then order.avg else mark);
    } else {
      NoFillConservesCost(cfg, s, c, l, tooSmall, order, mark);
    }
  }

  lemma CallConservesCost(cfg: Settings, s: State, c: Call)
    requires WellFormed(c)
    ensures var (s', o) := Evaluated(cfg, s, c); Cost(s') == Cost(s) + Paid(o)
  {
    if c.mark.Some? {
      var mark := c.mark.value;
      var due := Due(cfg, s, c.now, FloatingLoss(cfg, s, mark));
      if due.Some? {
        var qty := AddQty(cfg, due.value, mark);
        SettledConservesCost(cfg, s, c, due.value, TooSmall(cfg, qty, mark), Bought(cfg, c, qty, mark), mark);
      }
    }
  }

  lemma {:induction false} RunIsOrderly(cfg: Settings, s: State, calls: seq<Call>, l: Level)
    requires (forall c :: c in calls ==> WellFormed(c)) && Orderly(s)
    requires s.l1.attempts == s.l2.attempts == s.l3.attempts == 0
    ensures var end, outcomes := After(cfg, s, calls), Outcomes(cfg, s, calls);
      && Orderly(end)
      && Completions(outcomes, l) <= (if RungOf(end, l).done then 1 else 0)
      && (RungOf(s, l).done ==> RungOf(end, l).done)
      && Deferrals(outcomes, l) == RungOf(end, l).attempts
  {
    if calls != [] {
      var before := calls[..|calls| - 1];
      RunIsOrderly(cfg, s, before, l);
      CallIsOrderly(cfg, After(cfg, s, before), calls[|calls| - 1], l);
      var outcomes := Outcomes(cfg, s, calls);
      assert outcomes[..|outcomes| - 1] == Outcomes(cfg, s, before);
    }
  }

  lemma {:induction false} SharesAreCompletions(outcomes: seq<Outcome>)
    ensures CompletedShares(outcomes) ==
      Completions(outcomes, L1) as real + 2.0 * Completions(outcomes, L2) as real
      + 4.0 * Completions(outcomes, L3) as real
  {
    if outcomes != [] {
      SharesAreCompletions(outcomes[..|outcomes| - 1]);
    }
  }

  /** Over any run of calls on a fresh ladder: level 3 is done only after level 2 and level 2 only
      after level 1, each level completes at most once and is deferred at most five times, and
      the completed levels together add at most seven times the initial margin. */
  lemma LadderBounds(cfg: Settings, calls: seq<Call>, entry: real, qty: real, tp: real, risk: real, l: Level)
    requires forall c :: c in calls ==> WellFormed(c)
    ensures var s := Opened(entry, qty, tp, risk);
      var end, outcomes := After(cfg, s, calls), Outcomes(cfg, s, calls);
      && (end.l3.done ==> end.l2.done) && (end.l2.done ==> end.l1.done)
      && Completions(outcomes, l) <= 1
      && Deferrals(outcomes, l) <= MAX_ATTEMPTS
      && CompletedShares(outcomes) <= 7.0
  {
    var s := Opened(entry, qty, tp, risk);
    RunIsOrderly(cfg, s, calls, L1);
    RunIsOrderly(cfg, s, calls, L2);
    RunIsOrderly(cfg, s, calls, L3);
    SharesAreCompletions(Outcomes(cfg, s, calls));
  }

  /** Entry times quantity is always the original cost plus what the completed levels paid. */
  lemma {:induction false} CostConserved(cfg: Settings, s: State, calls: seq<Call>)
    requires forall c :: c in calls ==> WellFormed(c)
    ensures var end := After(cfg, s, calls);
      Cost(end) == Cost(s) + AddedCost(Outcomes(cfg, s, calls))
  {
    if calls != [] {
      var before := calls[..|calls| - 1];
      CostConserved(cfg, s, before);
      CallConservesCost(cfg, After(cfg, s, before), calls[|calls| - 1]);
      var outcomes := Outcomes(cfg, s, calls);
      assert outcomes[..|outcomes| - 1] == Outcomes(cfg, s, before);
    }
  }

  // ---- Fills that are bought but not recorded ---------------------------------------------

  function Repeated(c: Call, n: nat): (calls: seq<Call>)
    ensures |calls| == n && forall x :: x in calls ==> x == c
  {
    if n == 0 then [] else Repeated(c, n - 1) + [c]
  }

  lemma AfterAppend(cfg: Settings, s: State, calls: seq<Call>, c: Call)
    requires (forall x :: x in calls ==> WellFormed(x)) && WellFormed(c)
    ensures var last := Evaluated(cfg, After(cfg, s, calls), c);
      && After(cfg, s, calls + [c]) == last.0
      && Outcomes(cfg, s, calls + [c]) == Outcomes(cfg, s, calls) + [last.1]
  {
    assert (calls + [c])[..|calls|] == calls;
  }

  /** The seven-margins bound is about completed levels only.  A fill is recorded exactly when the
      new quantity is not rounded to nothing, the new average is not the stop and one of the three
      protection replacements works; otherwise it is bought and the state is unchanged. */
  lemma FillIsRecordedIff(cfg: Settings, s: State, c: Call, l: Level, filled: real, avg: real)
    ensures var (s', o) := Absorbed(cfg, s, c, l, filled, avg);
      var newQty := RoundQty(cfg.step, s.qty + filled);
      && (o.Completed? <==> newQty > 0.0 && BlendedEntry(s, filled, avg, newQty) != cfg.sl && Protected(c.replaced))
      && (o.Untracked? <==> newQty <= 0.0 || BlendedEntry(s, filled, avg, newQty) == cfg.sl)
      && (o.Completed? || o.Untracked? || o.Unprotected?)
      && (!o.Completed? ==> s' == s)
  {
  }

  predicate IsFill(o: Outcome) {
    o.Completed? || o.Untracked? || o.Unprotected?
  }

  /** Quantity of the fills that were recorded, and of those that were not. */
  function RecordedQty(outcomes: seq<Outcome>): real {
    if outcomes == [] then 0.0
    else
      var last := outcomes[|outcomes| - 1];
      RecordedQty(outcomes[..|outcomes| - 1]) + (if last.Completed? then last.filled else 0.0)
  }

  function UnrecordedQty(outcomes: seq<Outcome>): real {
    if outcomes == [] then 0.0
    else
      var last := outcomes[|outcomes| - 1];
      UnrecordedQty(outcomes[..|outcomes| - 1]) + (if last.Untracked? || last.Unprotected? then last.filled else 0.0)
  }

  /** The quantity held at the exchange after these outcomes. */
  function Held(start: real, outcomes: seq<Outcome>): real {
    start + RecordedQty(outcomes) + UnrecordedQty(outcomes)
  }

  predicate InSteps(step: real, qty: real) {
    qty >= 0.0 && RoundQty(step, qty) == qty
  }

  lemma StepsAddUp(step: real, a: real, b: real)
    requires InSteps(step, a) && InSteps(step, b)
    ensures InSteps(step, a + b)
  {
    if step > 0.0 {
      var k, n := WholeSteps(a, step), WholeSteps(b, step);
      MultipleOrder(0, k, step);
      MultipleOrder(0, n, step);
      assert Multiple(k, step) + Multiple(n, step) == Multiple(k + n, step);
      RoundQtyKeepsMultiples(step, k + n);
    }
  }

  lemma CallBooksRecordedFill(cfg: Settings, s: State, c: Call)
    requires WellFormed(c) && InSteps(cfg.step, s.qty)
    requires var o := Evaluated(cfg, s, c).1; IsFill(o) ==> InSteps(cfg.step, o.filled)
    ensures var (s', o) := Evaluated(cfg, s, c);
      s'.qty == s.qty + (if o.Completed? then o.filled else 0.0) && InSteps(cfg.step, s'.qty)
  {
    var o := Evaluated(cfg, s, c).1;
    if o.Completed? {
      StepsAddUp(cfg.step, s.qty, o.filled);
    }
  }

  /** Over any run in whole steps the books show exactly the start and the recorded fills. */
  lemma {:induction false} BooksShowRecordedFills(cfg: Settings, s: State, calls: seq<Call>)
    requires (forall c :: c in calls ==> WellFormed(c)) && InSteps(cfg.step, s.qty)
    requires forall o :: o in Outcomes(cfg, s, calls) && IsFill(o) ==> InSteps(cfg.step, o.filled)
    ensures var end := After(cfg, s, calls);
      end.qty == s.qty + RecordedQty(Outcomes(cfg, s, calls)) && InSteps(cfg.step, end.qty)
  {
    if calls != [] {
      var before, c := calls[..|calls| - 1], calls[|calls| - 1];
      var outcomes := Outcomes(cfg, s, calls);
      assert outcomes[..|outcomes| - 1] == Outcomes(cfg, s, before);
      assert outcomes[|outcomes| - 1] in outcomes;
      BooksShowRecordedFills(cfg, s, before);
      CallBooksRecordedFill(cfg, After(cfg, s, before), c);
    }
  }

  /** The monitor closes the booked quantity when a call asks to close all, and ends if that is
      accepted; a refused close leaves everything as it is. */
  predicate EndsMonitor(o: Outcome, c: Call) {
    (o.CloseAll? || o.Unprotected?) && c.closeWorks
  }

  predicate FillsPositive(outcomes: seq<Outcome>) {
    forall i :: 0 <= i < |outcomes| && IsFill(outcomes[i]) ==> outcomes[i].filled > 0.0
  }

  predicate AllRecorded(outcomes: seq<Outcome>) {
    forall i :: 0 <= i < |outcomes| && IsFill(outcomes[i]) ==> outcomes[i].Completed?
  }

  lemma {:induction false} FillsArePositive(cfg: Settings, s: State, calls: seq<Call>)
    requires forall c :: c in calls ==> WellFormed(c)
    ensures FillsPositive(Outcomes(cfg, s, calls))
  {
    if calls != [] {
      FillsArePositive(cfg, s, calls[..|calls| - 1]);
      FillsOnlyWhenDue(cfg, After(cfg, s, calls[..|calls| - 1]), calls[|calls| - 1]);
    }
  }

  lemma {:induction false} UnrecordedIsFilled(outcomes: seq<Outcome>)
    requires FillsPositive(outcomes)
    ensures UnrecordedQty(outcomes) >= 0.0
    ensures UnrecordedQty(outcomes) == 0.0 <==> AllRecorded(outcomes)
  {
    if outcomes != [] {
      UnrecordedIsFilled(outcomes[..|outcomes| - 1]);
    }
  }

  lemma CloseKeepsState(cfg: Settings, s: State, c: Call)
    requires WellFormed(c) && !Evaluated(cfg, s, c).1.Completed?
    ensures Evaluated(cfg, s, c).0.qty == s.qty
    ensures var o := Evaluated(cfg, s, c).1;
      o.Untracked? || o.Unprotected? || o.CloseAll? ==> Evaluated(cfg, s, c).0 == s
  {
  }

  /** What an accepted close leaves open, over any run in whole steps that it ends: exactly the
      fills that were never recorded; nothing exactly when every fill was recorded.  A fill that
      could not be protected is one that was not. */
  lemma AcceptedCloseLeaves(cfg: Settings, s: State, before: seq<Call>, c: Call)
    requires (forall x :: x in before ==> WellFormed(x)) && WellFormed(c) && InSteps(cfg.step, s.qty)
    requires forall o :: o in Outcomes(cfg, s, before + [c]) && IsFill(o) ==> InSteps(cfg.step, o.filled)
    requires EndsMonitor(Evaluated(cfg, After(cfg, s, before), c).1, c)
    ensures var booked, outcomes := After(cfg, s, before).qty, Outcomes(cfg, s, before + [c]);
      var left := Held(s.qty, outcomes) - booked;
      && left == UnrecordedQty(outcomes) >= 0.0
      && (left == 0.0 <==> AllRecorded(outcomes))
      && (Evaluated(cfg, After(cfg, s, before), c).1.Unprotected? ==> left > 0.0)
  {
    var calls := before + [c];
    BooksShowRecordedFills(cfg, s, calls);
    FillsArePositive(cfg, s, calls);
    UnrecordedIsFilled(Outcomes(cfg, s, calls));
    AfterAppend(cfg, s, before, c);
    var outcomes := Outcomes(cfg, s, calls);
    assert outcomes[|outcomes| - 1] in outcomes;
    CloseKeepsState(cfg, After(cfg, s, before), c);
  }

  function Times(n: nat, x: real): real {
    if n == 0 then 0.0 else Times(n - 1, x) + x
  }

  lemma {:induction false} TimesIsProduct(n: nat, x: real)
    ensures Times(n, x) == n as real * x
  {
    if n > 0 {
      TimesIsProduct(n - 1, x);
      assert (n - 1) as real == n as real - 1.0;
    }
  }

  lemma {:induction false} RepeatedUnrecorded(outcomes: seq<Outcome>, n: nat, o: Outcome)
    requires o.Untracked? || o.Unprotected?
    requires |outcomes| == n && forall i :: 0 <= i < n ==> outcomes[i] == o
    ensures UnrecordedQty(outcomes) == Times(n, o.filled)
  {
    if n > 0 {
      RepeatedUnrecorded(outcomes[..n - 1], n - 1, o);
    }
  }

  lemma {:induction false} UnrecordedRepeats(cfg: Settings, s: State, c: Call, n: nat, o: Outcome)
    requires WellFormed(c) && Evaluated(cfg, s, c) == (s, o)
    ensures After(cfg, s, Repeated(c, n)) == s
    ensures forall i :: 0 <= i < n ==> Outcomes(cfg, s, Repeated(c, n))[i] == o
  {
    if n > 0 {
      UnrecordedRepeats(cfg, s, c, n - 1, o);
      AfterAppend(cfg, s, Repeated(c, n - 1), c);
    }
  }

  /** Nothing bounds how often a call buys without recording it: as long as it does not end the
      monitor, every repetition buys the same quantity again and leaves the same state. */
  lemma UnrecordedFillsAreUnbounded(cfg: Settings, s: State, c: Call, n: nat, o: Outcome)
    requires WellFormed(c) && o == Evaluated(cfg, s, c).1
    requires (o.Untracked? || o.Unprotected?) && !EndsMonitor(o, c)
    ensures After(cfg, s, Repeated(c, n)) == s
    ensures forall i :: 0 <= i < n ==> Outcomes(cfg, s, Repeated(c, n))[i] == o
    ensures UnrecordedQty(Outcomes(cfg, s, Repeated(c, n))) == Times(n, o.filled)
  {
    CloseKeepsState(cfg, s, c);
    UnrecordedRepeats(cfg, s, c, n, o);
    RepeatedUnrecorded(Outcomes(cfg, s, Repeated(c, n)), n, o);
  }

  const SHORT := Settings(true, Sell, 12.0, 2.0, 10, 1.0, 0.0, 0.0, 2.0, false)

  /** A short of 1 at 10 with its stop at 12. */
  const AT_TEN := Opened(10.0, 1.0, 6.0, 2.0)

  /** At a mark of 11 its first level is due and asks for one unit more, which fills at `avg`. */
  function AtLoss(avg: real, protects: bool, closeWorks: bool): Call {
    Call(0.0, true, Some(11.0), 11.0, Executed(1.0, avg), _ => protects, closeWorks)
  }

  lemma ShortIsDue(avg: real, protects: bool, closeWorks: bool)
    requires avg > 0.0
    ensures var c := AtLoss(avg, protects, closeWorks);
      AddQty(SHORT, L1, 11.0) == 1.0 && Evaluated(SHORT, AT_TEN, c) == Absorbed(SHORT, AT_TEN, c, L1, 1.0, avg)
  {
    assert AddQty(SHORT, L1, 11.0) == 1.0;
    assert Due(SHORT, AT_TEN, 0.0, FloatingLoss(SHORT, AT_TEN, 11.0)) == Some(L1);
  }

  lemma ShortAbsorbs(avg: real, protects: bool, closeWorks: bool)
    requires avg == 14.0 || (avg == 11.0 && !protects)
    ensures Absorbed(SHORT, AT_TEN, AtLoss(avg, protects, closeWorks), L1, 1.0, avg).1 ==
            if avg == 14.0 then Untracked(L1, 1.0, 14.0) else Unprotected(L1, 1.0, 11.0)
  {
    assert RoundQty(1.0, 2.0) == 2.0;
    assert BlendedEntry(AT_TEN, 1.0, avg, 2.0) == (10.0 + avg) / 2.0;
  }

  /** When that unit fills at 14, through the stop, the average lands on it: calls in the same market
      buy one unit each, and the books still show one unit at 10. */
  lemma SlippedFillsGoUnrecorded(n: nat)
    ensures var calls := Repeated(AtLoss(14.0, true, true), n);
      After(SHORT, AT_TEN, calls) == AT_TEN && UnrecordedQty(Outcomes(SHORT, AT_TEN, calls)) == n as real
  {
    ShortIsDue(14.0, true, true);
    ShortAbsorbs(14.0, true, true);
    UnrecordedFillsAreUnbounded(SHORT, AT_TEN, AtLoss(14.0, true, true), n, Untracked(L1, 1.0, 14.0));
    TimesIsProduct(n, 1.0);
  }

  /** And when it fills at the mark but its protections cannot be placed, every call buys one unit
      while the close is refused. */
  lemma UnprotectedFillsGoUnrecorded(n: nat)
    ensures var calls := Repeated(AtLoss(11.0, false, false), n);
      After(SHORT, AT_TEN, calls) == AT_TEN && UnrecordedQty(Outcomes(SHORT, AT_TEN, calls)) == n as real
  {
    ShortIsDue(11.0, false, false);
    ShortAbsorbs(11.0, false, false);
    UnrecordedFillsAreUnbounded(SHORT, AT_TEN, AtLoss(11.0, false, false), n, Unprotected(L1, 1.0, 11.0));
    TimesIsProduct(n, 1.0);
  }

  // ---- One call in plain arithmetic -------------------------------------------------------

  /** What the position has lost at this mark, in money; negative for a gain. */
  function LossAt(cfg: Settings, s: State, mark: real): real {
    if cfg.side == Sell then (mark - s.entry) * s.qty else (s.entry - mark) * s.qty
  }

  lemma FloatingLossIs(cfg: Settings, s: State, mark: real)
    ensures FloatingLoss(cfg, s, mark) == MaxReal(0.0, LossAt(cfg, s, mark))
  {
    assert (s.entry - mark) * s.qty == -((mark - s.entry) * s.qty);
  }

  /** Every call with a price is one of these: nothing when scaling is off, all levels are done or
      there is no data; close all exactly when mark or last close has reached the stop; and else an
      action exactly when the first open level has lost half, once or twice the initial margin and
      its retry time has come. */
  lemma ActsExactlyWhen(cfg: Settings, s: State, c: Call)
    requires WellFormed(c) && Orderly(s)
    ensures var o := Evaluated(cfg, s, c).1;
      var awake := cfg.enabled && !(s.l1.done && s.l2.done && s.l3.done) && c.frameReady && c.mark.Some?;
      && (o.CloseAll? <==> awake && (if cfg.side == Buy then c.mark.value <= cfg.sl || c.lastClose <= cfg.sl
                                     else c.mark.value >= cfg.sl || c.lastClose >= cfg.sl))
      && (!o.Idle? && !o.CloseAll? <==>
            && awake && !o.CloseAll? && cfg.margin > 0.0
            && var loss := LossAt(cfg, s, c.mark.value);
               if !s.l1.done then c.now >= s.l1.nextTry && loss >= 0.5 * cfg.margin
               else if !s.l2.done then c.now >= s.l2.nextTry && loss >= cfg.margin
               else c.now >= s.l3.nextTry && loss >= 2.0 * cfg.margin)
      && (!o.Idle? && !o.CloseAll? ==> o.level == if !s.l1.done then L1 else if !s.l2.done then L2 else L3)
  {
    if c.mark.Some? {
      FloatingLossIs(cfg, s, c.mark.value);
    }
  }

  /** What a level asks for: what one, two or four times the initial margin buys, */
  lemma AddQtyIs(cfg: Settings, mark: real)
    requires mark != 0.0
    ensures AddQty(cfg, L1, mark) == Buyable(cfg, cfg.margin, mark)
    ensures AddQty(cfg, L2, mark) == Buyable(cfg, 2.0 * cfg.margin, mark)
    ensures AddQty(cfg, L3, mark) == Buyable(cfg, 4.0 * cfg.margin, mark)
  {
  }

  /** which is the most whole steps within the capital times the configured leverage. */
  lemma BuyableAffords(cfg: Settings, capital: real, mark: real, notional: real, qty: real)
    requires mark > 0.0 && notional == capital * cfg.leverage as real && notional >= 0.0
    requires qty == Buyable(cfg, capital, mark)
    ensures Affords(qty, notional, mark, cfg.step)
  {
    OrderAffords(capital, cfg.leverage, mark, cfg.step, notional, OrderQty(capital, cfg.leverage, mark, cfg.step));
  }

  lemma SmallIs(cfg: Settings, qty: real, mark: real)
    requires mark > 0.0
    ensures TooSmall(cfg, qty, mark) <==> qty <= 0.0 || qty < cfg.minQty || qty * mark < cfg.minNotional
  {
    if qty > 0.0 {
      ScaleLess(0.0, qty, mark);
      ScaleLess(qty, 0.0, mark);
    }
  }

  lemma SettledOutcome(cfg: Settings, s: State, c: Call, l: Level, tooSmall: bool, order: Order, mark: real)
    ensures var o := Settled(cfg, s, c, l, tooSmall, order, mark).1;
      && (o.Skipped? <==> tooSmall)
      && (o.Skipped? ==> RungOf(Settled(cfg, s, c, l, tooSmall, order, mark).0, l) == RungOf(s, l).(done := true))
      && (o.Deferred? <==> !tooSmall && (order.OrderError? || order.filled <= 0.0))
      && !o.Idle? && !o.CloseAll? && o.level == l
  {
  }

  /** A fresh ladder has every level open, untried and ready at once, and books what was entered. */
  lemma FreshLadder(entry: real, qty: real, tp: real, risk: real, l: Level)
    ensures var s := Opened(entry, qty, tp, risk);
      && !RungOf(s, l).done && RungOf(s, l).attempts == 0 && RungOf(s, l).nextTry == 0.0
      && s.entry == entry && s.qty == qty && s.tp == tp && s.risk == risk
  {
  }

  /** What becomes of a level that acts: skipped exactly when what it can buy is nothing or below an
      exchange minimum, put off exactly when else a live order raises or fills nothing. */
  lemma LevelOutcomeIff(cfg: Settings, s: State, c: Call)
    requires WellFormed(c)
    requires var o := Evaluated(cfg, s, c).1; !o.Idle? && !o.CloseAll?
    ensures var o, mark := Evaluated(cfg, s, c).1, c.mark.value;
      var qty := AddQty(cfg, o.level, mark);
      var small := qty <= 0.0 || qty < cfg.minQty || qty * mark < cfg.minNotional;
      && (o.Skipped? <==> small)
      && (o.Skipped? ==> RungOf(Evaluated(cfg, s, c).0, o.level) == RungOf(s, o.level).(done := true))
      && (o.Deferred? <==> !small && !cfg.paper && (c.order.OrderError? || c.order.filled <= 0.0))
  {
    var o, mark := Evaluated(cfg, s, c).1, c.mark.value;
    var qty := AddQty(cfg, o.level, mark);
    SmallIs(cfg, qty, mark);
    SettledOutcome(cfg, s, c, o.level, TooSmall(cfg, qty, mark), Bought(cfg, c, qty, mark), mark);
  }

  /** A fill is protected exactly when one of the first three tries to replace its protections works. */
  lemma ProtectedIff(replaced: nat -> bool)
    ensures Protected(replaced) <==> exists attempt: nat :: 1 <= attempt <= 3 && replaced(attempt)
  {
  }

  /** Back-off: the first four failed tries of a level wait 2, 4, 8 and 16 seconds, the fifth closes
      it. */
  lemma BackOff(cfg: Settings, s: State, c: Call)
    requires WellFormed(c) && Evaluated(cfg, s, c).1.Deferred?
    ensures var l := Evaluated(cfg, s, c).1.level;
      var before, after := RungOf(s, l), RungOf(Evaluated(cfg, s, c).0, l);
      && after.attempts == before.attempts + 1
      && (before.attempts == 0 ==> after.nextTry == c.now + 2.0)
      && (before.attempts == 1 ==> after.nextTry == c.now + 4.0)
      && (before.attempts == 2 ==> after.nextTry == c.now + 8.0)
      && (before.attempts == 3 ==> after.nextTry == c.now + 16.0)
      && (before.attempts >= 4 ==> after.done)
      && (before.attempts < 4 ==> after.done == before.done)
  {
    assert Pow2(1) == 2 && Pow2(2) == 4 && Pow2(3) == 8 && Pow2(4) == 16;
  }

  lemma TargetIs(cfg: Settings, entry: real, risk: real)
    requires risk > 0.0
    ensures var tp := Target(cfg, entry, risk);
      (if cfg.side == Buy then tp - entry else entry - tp) == (if cfg.tpRr > 1.8 then cfg.tpRr else 1.8) * risk
  {
  }

  /** Risk is the distance from the average to the stop, and the take-profit the configured number of
      risks away on the profit side, but no fewer than 1.8. */
  predicate LevelsSet(cfg: Settings, s: State) {
    && s.risk > 0.0 && s.risk == (if s.entry >= cfg.sl then s.entry - cfg.sl else cfg.sl - s.entry)
    && (if cfg.side == Buy then s.tp - s.entry else s.entry - s.tp) ==
       (if cfg.tpRr > 1.8 then cfg.tpRr else 1.8) * s.risk
  }

  lemma AbsorbedSetsLevels(cfg: Settings, s: State, c: Call, l: Level, filled: real, avg: real)
    ensures var (s', o) := Absorbed(cfg, s, c, l, filled, avg); o.Completed? ==> LevelsSet(cfg, s')
  {
    var (s', o) := Absorbed(cfg, s, c, l, filled, avg);
    if o.Completed? {
      TargetIs(cfg, s'.entry, s'.risk);
    }
  }

  /** A recorded fill sets risk and take-profit so. */
  lemma RecordedLevels(cfg: Settings, s: State, c: Call)
    requires WellFormed(c) && Evaluated(cfg, s, c).1.Completed?
    ensures LevelsSet(cfg, Evaluated(cfg, s, c).0)
  {
    var o := Evaluated(cfg, s, c).1;
    var order := Bought(cfg, c, AddQty(cfg, o.level, c.mark.value), c.mark.value);
    AbsorbedSetsLevels(cfg, s, c, o.level, order.filled, if order.avg > 0.0 then order.avg else c.mark.value);
  }
}
