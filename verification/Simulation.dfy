/** The candle-by-candle simulator of the backtest (backtest/backtest.py, `_simulate_trades`).

    The strategy is an arbitrary deterministic function of the window and the context slice it
    is given; it may also raise. */
module Simulation {
  import opened Common
  import opened ExitScan

  const SKIP_AFTER_SIGNAL := 10
  const MIN_SCORE := 1.0
  const COMMISSION_PCT := 0.0004

  /** A candle of the higher timeframe. */
  datatype ContextRow = ContextRow(closeTime: int, rest: seq<Option<real>>)

  datatype Signal = Signal(levels: Levels, score: real)

  datatype Evaluation = Raises | Silent | Found(signal: Signal)

  type Strategy = (seq<Candle>, seq<ContextRow>) -> Evaluation

  /** `secondPass` is set on the 15m interval, `blockSell` on the intervals that block shorts. */
  datatype Config = Config(evalWindow: nat, contextWindow: nat, blockSell: bool, secondPass: bool,
                           notional: real, long: Strategy, short: Strategy)

  datatype Decision = Failed | NoSignal | BlockedSell | LowScore | BadPrice | Open(signal: Signal)

  datatype Trade = Trade(candle: nat, signal: Signal, exit: Exit, pnl: real)

  datatype Diagnostics = Diagnostics(evalCalls: nat, signals: nat, blockedSells: nat, lowScores: nat, badPrices: nat)

  ghost predicate Chronological(context: seq<ContextRow>) {
    forall i, j :: 0 <= i < j < |context| ==> context[i].closeTime <= context[j].closeTime
  }

  ghost predicate ClosesInOrder(df: seq<Candle>) {
    forall i, j :: 0 <= i < j < |df| ==> df[i].closeTime <= df[j].closeTime
  }

  /** All context rows closed by `cutoff`, in order. */
  function ClosedBy(context: seq<ContextRow>, cutoff: int): seq<ContextRow> {
    if context == [] then []
    else if context[0].closeTime <= cutoff then [context[0]] + ClosedBy(context[1..], cutoff)
    else ClosedBy(context[1..], cutoff)
  }

  function LastRows<T>(rows: seq<T>, count: nat): seq<T> {
    if count < |rows| then rows[|rows| - count..] else rows
  }

  /** What the strategy sees on candle `i`: the frame up to and including `i`, and the context
      closed by then, both cut to their windows. */
  function Window(cfg: Config, df: seq<Candle>, i: nat): seq<Candle>
    requires i < |df|
  {
    df[MaxInt(0, i - cfg.evalWindow + 1)..i + 1]
  }

  function ContextAt(cfg: Config, context: seq<ContextRow>, cutoff: int): seq<ContextRow> {
    LastRows(ClosedBy(context, cutoff), cfg.contextWindow)
  }

  function Judge(cfg: Config, found: Signal): Decision {
    if cfg.blockSell && found.levels.side == Sell then BlockedSell
    else if found.score < MIN_SCORE then LowScore
    else if found.levels.entry <= 0.0 || found.levels.stop <= 0.0 || found.levels.tp <= 0.0 then BadPrice
    else Open(found)
  }

  /** The decision on what the strategy is shown: the long engine first, the 15m short engine
      when the long one stays silent. */
  function DecideOn(cfg: Config, window: seq<Candle>, context: seq<ContextRow>): Decision {
    match cfg.long(window, context)
    case Raises => Failed
    case Found(signal) => Judge(cfg, signal)
    case Silent =>
      if !cfg.secondPass then NoSignal
      else match cfg.short(window, context)
        case Raises => Failed
        case Silent => NoSignal
        case Found(signal) => Judge(cfg, signal)
  }

  function Decide(cfg: Config, df: seq<Candle>, context: seq<ContextRow>, i: nat): Decision
    requires i < |df|
  {
    DecideOn(cfg, Window(cfg, df, i), ContextAt(cfg, context, df[i].closeTime))
  }

  function TradeAt(cfg: Config, df: seq<Candle>, i: nat, signal: Signal): Trade
    requires i + 1 < |df| && signal.levels.entry > 0.0
  {
    var exit := ExitOf(df, i, signal.levels);
    var qty := cfg.notional / signal.levels.entry;
    Trade(i, signal, exit,
          GrossPnl(signal.levels, exit.price, qty) - qty * signal.levels.entry * COMMISSION_PCT * 2.0)
  }

  /** The trades opened from candle `i` on. */
  function TradesFrom(cfg: Config, df: seq<Candle>, context: seq<ContextRow>, i: nat): seq<Trade>
    decreases |df| - i
  {
    if i + 1 >= |df| then []
    else match Decide(cfg, df, context, i)
      case Open(signal) => [TradeAt(cfg, df, i, signal)] + TradesFrom(cfg, df, context, i + SKIP_AFTER_SIGNAL)
      case _ => TradesFrom(cfg, df, context, i + 1)
  }

  function WarmUp(n: nat): nat {
    MinInt(230, MaxInt(20, n / 2))
  }

  function Trades(cfg: Config, df: seq<Candle>, context: seq<ContextRow>): seq<Trade> {
    TradesFrom(cfg, df, context, WarmUp(|df|))
  }

  // ---- The memoised context slice ---------------------------------------------------------

  /** `searchsorted(cutoff, side="right")`: the first position closing after `cutoff`. */
  method SearchSortedRight(context: seq<ContextRow>, cutoff: int) returns (pos: nat)
    requires Chronological(context)
    ensures pos <= |context|
    ensures forall j :: 0 <= j < pos ==> context[j].closeTime <= cutoff
    ensures forall j :: pos <= j < |context| ==> cutoff < context[j].closeTime
  {
    var lo, hi := 0, |context|;
    while lo < hi
      invariant 0 <= lo <= hi <= |context|
      invariant forall j :: 0 <= j < lo ==> context[j].closeTime <= cutoff
      invariant forall j :: hi <= j < |context| ==> cutoff < context[j].closeTime
    {
      var mid := lo + (hi - lo) / 2;
      if context[mid].closeTime <= cutoff { lo := mid + 1; } else { hi := mid; }
    }
    pos := lo;
  }

  lemma {:induction false} ClosedByIsPrefix(context: seq<ContextRow>, cutoff: int, pos: nat)
    requires pos <= |context|
    requires forall j :: 0 <= j < pos ==> context[j].closeTime <= cutoff
    requires forall j :: pos <= j < |context| ==> cutoff < context[j].closeTime
    ensures ClosedBy(context, cutoff) == context[..pos]
  {
    if context == [] {
    } else if pos == 0 {
      assert context[0].closeTime > cutoff;
      ClosedByIsPrefix(context[1..], cutoff, 0);
    } else {
      assert context[0].closeTime <= cutoff;
      ClosedByIsPrefix(context[1..], cutoff, pos - 1);
      assert context[..pos] == [context[0]] + context[1..][..pos - 1];
    }
  }

  /** One evaluation of the strategy, both passes and all filters, with the counters.  `window`
      and `sub` are what the loop hands over. */
  method Evaluate(cfg: Config, window: seq<Candle>, sub: seq<ContextRow>, diag: Diagnostics)
    returns (decision: Decision, counted: Diagnostics)
    ensures decision == DecideOn(cfg, window, sub)
    ensures counted.evalCalls == diag.evalCalls + 1
    ensures counted.signals == diag.signals + (if decision.Failed? || decision.NoSignal? then 0 else 1)
    ensures counted.blockedSells == diag.blockedSells + (if decision.BlockedSell? then 1 else 0)
    ensures counted.lowScores == diag.lowScores + (if decision.LowScore? then 1 else 0)
    ensures counted.badPrices == diag.badPrices + (if decision.BadPrice? then 1 else 0)
    ensures decision.Open? ==> decision.signal.levels.entry > 0.0 && decision.signal.score >= MIN_SCORE
  {
    counted := diag.(evalCalls := diag.evalCalls + 1);
    var signal := cfg.long(window, sub);
    if signal.Raises? {
      return Failed, counted;
    }
    if signal.Silent? && cfg.secondPass {
      signal := cfg.short(window, sub);
      if signal.Raises? {
        return Failed, counted;
      }
    }
    if signal.Silent? {
      return NoSignal, counted;
    }
    var s := signal.signal;
    counted := counted.(signals := counted.signals + 1);
    if cfg.blockSell && s.levels.side == Sell {
      return BlockedSell, counted.(blockedSells := counted.blockedSells + 1);
    }
    if s.score < MIN_SCORE {
      return LowScore, counted.(lowScores := counted.lowScores + 1);
    }
    if s.levels.entry <= 0.0 || s.levels.stop <= 0.0 || s.levels.tp <= 0.0 {
      return BadPrice, counted.(badPrices := counted.badPrices + 1);
    }
    return Open(s), counted;
  }

  ghost predicate SliceIsCurrent(cfg: Config, context: seq<ContextRow>, pos: int, sub: seq<ContextRow>) {
    && -1 <= pos <= |context|
    && (pos >= 0 ==> sub == LastRows(context[..pos], cfg.contextWindow))
    && (context == [] ==> sub == [])
  }

  /** The memo: the slice is cut again only when its end position has moved. */
  method AdvanceContext(cfg: Config, context: seq<ContextRow>, cutoff: int, prevPos: int, held: seq<ContextRow>)
    returns (pos: int, sub: seq<ContextRow>)
    requires Chronological(context) && SliceIsCurrent(cfg, context, prevPos, held)
    ensures SliceIsCurrent(cfg, context, pos, sub)
    ensures sub == ContextAt(cfg, context, cutoff)
  {
    pos, sub := prevPos, held;
    if context != [] {
      var p := SearchSortedRight(context, cutoff);
      ClosedByIsPrefix(context, cutoff, p);
      if p != prevPos {
        sub := context[MaxInt(0, p - cfg.contextWindow)..p];
        pos := p;
      }
    }
  }

  method OpenTrade(cfg: Config, df: seq<Candle>, i: nat, signal: Signal) returns (t: Trade)
    requires i + 1 < |df| && signal.levels.entry > 0.0
    ensures t == TradeAt(cfg, df, i, signal)
    ensures IsExit(df, i, signal.levels, t.exit)
  {
    var qty := cfg.notional / signal.levels.entry;
    var commission := qty * signal.levels.entry * COMMISSION_PCT * 2.0;
    var exit := ScanExit(df, i, signal.levels);
    t := Trade(i, signal, exit, GrossPnl(signal.levels, exit.price, qty) - commission);
  }

  /** One step of the walk: the trades collected so far and those still to come. */
  lemma WalkStep(cfg: Config, df: seq<Candle>, context: seq<ContextRow>, i: nat, trades: seq<Trade>)
    requires i + 1 < |df|
    ensures var d := Decide(cfg, df, context, i);
      trades + TradesFrom(cfg, df, context, i) ==
      if d.Open? then (trades + [TradeAt(cfg, df, i, d.signal)]) + TradesFrom(cfg, df, context, i + SKIP_AFTER_SIGNAL)
      else trades + TradesFrom(cfg, df, context, i + 1)
  {
    var d := Decide(cfg, df, context, i);
    if d.Open? {
      var t, rest := TradeAt(cfg, df, i, d.signal), TradesFrom(cfg, df, context, i + SKIP_AFTER_SIGNAL);
      assert trades + ([t] + rest) == (trades + [t]) + rest;
    }
  }

  lemma DecisionHere(cfg: Config, df: seq<Candle>, context: seq<ContextRow>, i: nat, sub: seq<ContextRow>)
    requires i < |df| && sub == ContextAt(cfg, context, df[i].closeTime)
    ensures DecideOn(cfg, Window(cfg, df, i), sub) == Decide(cfg, df, context, i)
  {
  }

  /** Signals found, less those accounted for. */
  function Accounted(trades: nat, diag: Diagnostics): int {
    diag.signals - (trades + diag.blockedSells + diag.lowScores + diag.badPrices)
  }

  /** One candle of the walk: it is evaluated, and a trade is opened or not. */
  method Visit(cfg: Config, df: seq<Candle>, context: seq<ContextRow>, i: nat, sub: seq<ContextRow>,
               trades: seq<Trade>, diag: Diagnostics)
    returns (trades': seq<Trade>, diag': Diagnostics, next: nat)
    requires i + 1 < |df| && sub == ContextAt(cfg, context, df[i].closeTime)
    ensures next > i
    ensures trades' + TradesFrom(cfg, df, context, next) == trades + TradesFrom(cfg, df, context, i)
    ensures Accounted(|trades'|, diag') == Accounted(|trades|, diag)
    ensures diag'.signals - diag'.evalCalls <= diag.signals - diag.evalCalls
  {
    var decision;
    decision, diag' := Evaluate(cfg, Window(cfg, df, i), sub, diag);
    DecisionHere(cfg, df, context, i, sub);
    WalkStep(cfg, df, context, i, trades);
    if decision.Open? {
      var t := OpenTrade(cfg, df, i, decision.signal);
      trades', next := trades + [t], i + SKIP_AFTER_SIGNAL;
    } else {
      trades', next := trades, i + 1;
    }
  }

  /** The walk.  The context slice is recomputed only when its end position moves, and is
      always the specified one; the trades are the specified ones; every signal found is
      accounted for exactly once. */
  method Simulate(cfg: Config, df: seq<Candle>, context: seq<ContextRow>)
    returns (trades: seq<Trade>, diag: Diagnostics)
    requires Chronological(context)
    ensures trades == Trades(cfg, df, context)
    ensures diag.signals == |trades| + diag.blockedSells + diag.lowScores + diag.badPrices
    ensures diag.signals <= diag.evalCalls
  {
    trades := [];
    diag := Diagnostics(0, 0, 0, 0, 0);
    var i := WarmUp(|df|);
    var prevPos, contextSub := -1, [];
    while i + 1 < |df|
      invariant 0 <= i
      invariant SliceIsCurrent(cfg, context, prevPos, contextSub)
      invariant trades + TradesFrom(cfg, df, context, i) == Trades(cfg, df, context)
      invariant Accounted(|trades|, diag) == 0
      invariant diag.signals <= diag.evalCalls
      decreases |df| - i
    {
      prevPos, contextSub := AdvanceContext(cfg, context, df[i].closeTime, prevPos, contextSub);
      trades, diag, i := Visit(cfg, df, context, i, contextSub, trades, diag);
    }
  }
}
