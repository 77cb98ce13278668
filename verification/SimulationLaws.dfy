/** Laws of whole simulations: no look-ahead, and how many trades can overlap. */
module SimulationLaws {
  import opened Common
  import opened ExitScan
  import opened Simulation

  // ---- No look-ahead ----------------------------------------------------------------------

  /** The two inputs are the same as far as anyone can know at the close of candle `k`. */
  ghost predicate SameUntil(df: seq<Candle>, context: seq<ContextRow>,
                            df': seq<Candle>, context': seq<ContextRow>, k: nat)
  {
    && |df| == |df'| && k < |df|
    && (forall j :: 0 <= j <= k ==> df[j] == df'[j])
    && ClosedBy(context, df[k].closeTime) == ClosedBy(context', df[k].closeTime)
  }

  /** The trades opened by candle `k`, of a list in order of opening. */
  function OpenedBy(trades: seq<Trade>, k: nat): seq<Trade> {
    if trades == [] || trades[0].candle > k then []
    else [trades[0]] + OpenedBy(trades[1..], k)
  }

  /** Same signal candles, same signals, and the same trade whenever either one has ended by `k`. */
  ghost predicate AgreeBy(ts: seq<Trade>, ts': seq<Trade>, k: nat) {
    && |ts| == |ts'|
    && forall m :: 0 <= m < |ts| ==>
         && ts[m].candle == ts'[m].candle && ts[m].signal == ts'[m].signal
         && (ts[m].exit.at <= k || ts'[m].exit.at <= k ==> ts[m] == ts'[m])
  }

  lemma {:induction false} ClosedByNests(context: seq<ContextRow>, late: int, early: int)
    requires early <= late
    ensures ClosedBy(ClosedBy(context, late), early) == ClosedBy(context, early)
  {
    if context != [] {
      ClosedByNests(context[1..], late, early);
      if context[0].closeTime <= late {
        assert ([context[0]] + ClosedBy(context[1..], late))[1..] == ClosedBy(context[1..], late);
      }
    }
  }

  lemma DecisionsAgree(cfg: Config, df: seq<Candle>, context: seq<ContextRow>,
                       df': seq<Candle>, context': seq<ContextRow>, k: nat, i: nat)
    requires SameUntil(df, context, df', context', k) && ClosesInOrder(df) && i <= k
    ensures Decide(cfg, df, context, i) == Decide(cfg, df', context', i)
  {
    ClosedByNests(context, df[k].closeTime, df[i].closeTime);
    ClosedByNests(context', df[k].closeTime, df[i].closeTime);
    assert Window(cfg, df, i) == Window(cfg, df', i);
  }

  lemma ExitsAgree(df: seq<Candle>, df': seq<Candle>, k: nat, i: nat, l: Levels)
    requires |df| == |df'| && k < |df| && i + 1 < |df|
    requires forall j :: 0 <= j <= k ==> df[j] == df'[j]
    requires ExitOf(df, i, l).at <= k
    ensures ExitOf(df', i, l) == ExitOf(df, i, l)
  {
    ExitFromIsExit(df, i, l, i + 1);
    ExitFromIsExit(df', i, l, i + 1);
    ExitIsUnique(df', i, l, ExitOf(df, i, l), ExitOf(df', i, l));
  }

  lemma AgreeCons(t: Trade, ts: seq<Trade>, t': Trade, ts': seq<Trade>, k: nat)
    requires t.candle == t'.candle <= k && t.signal == t'.signal
    requires t.exit.at <= k || t'.exit.at <= k ==> t == t'
    requires AgreeBy(OpenedBy(ts, k), OpenedBy(ts', k), k)
    ensures AgreeBy(OpenedBy([t] + ts, k), OpenedBy([t'] + ts', k), k)
  {
    assert ([t] + ts)[1..] == ts && ([t'] + ts')[1..] == ts';
  }

  lemma TradeOutcomesAgree(cfg: Config, df: seq<Candle>, df': seq<Candle>, k: nat, i: nat, signal: Signal)
    requires |df| == |df'| && k < |df| && i + 1 < |df| && signal.levels.entry > 0.0
    requires forall j :: 0 <= j <= k ==> df[j] == df'[j]
    ensures var t, t' := TradeAt(cfg, df, i, signal), TradeAt(cfg, df', i, signal);
      t.exit.at <= k || t'.exit.at <= k ==> t == t'
  {
    if ExitOf(df, i, signal.levels).at <= k { ExitsAgree(df, df', k, i, signal.levels); }
    if ExitOf(df', i, signal.levels).at <= k { ExitsAgree(df', df, k, i, signal.levels); }
  }

  lemma {:induction false} NothingOpensBefore(cfg: Config, df: seq<Candle>, context: seq<ContextRow>, i: nat)
    ensures forall t :: t in TradesFrom(cfg, df, context, i) ==>
      i <= t.candle < t.exit.at <= t.candle + MAX_CANDLES_HOLD && t.exit.at < |df|
    decreases |df| - i
  {
    if i + 1 < |df| {
      match Decide(cfg, df, context, i) {
        case Open(signal) =>
          ExitFromIsExit(df, i, signal.levels, i + 1);
          NothingOpensBefore(cfg, df, context, i + SKIP_AFTER_SIGNAL);
        case _ =>
          NothingOpensBefore(cfg, df, context, i + 1);
      }
    }
  }

  lemma {:induction false} WalksAgree(cfg: Config, df: seq<Candle>, context: seq<ContextRow>,
                                      df': seq<Candle>, context': seq<ContextRow>, k: nat, i: nat)
    requires SameUntil(df, context, df', context', k) && ClosesInOrder(df)
    ensures AgreeBy(OpenedBy(TradesFrom(cfg, df, context, i), k), OpenedBy(TradesFrom(cfg, df', context', i), k), k)
    decreases |df| - i
  {
    if i + 1 >= |df| {
    } else if i > k {
      NothingOpensBefore(cfg, df, context, i);
      NothingOpensBefore(cfg, df', context', i);
    } else {
      DecisionsAgree(cfg, df, context, df', context', k, i);
      var decision := Decide(cfg, df, context, i);
      if decision.Open? {
        WalksAgree(cfg, df, context, df', context', k, i + SKIP_AFTER_SIGNAL);
        TradeOutcomesAgree(cfg, df, df', k, i, decision.signal);
        AgreeCons(TradeAt(cfg, df, i, decision.signal), TradesFrom(cfg, df, context, i + SKIP_AFTER_SIGNAL),
                  TradeAt(cfg, df', i, decision.signal), TradesFrom(cfg, df', context', i + SKIP_AFTER_SIGNAL), k);
      } else {
        WalksAgree(cfg, df, context, df', context', k, i + 1);
      }
    }
  }

  /** No look-ahead: candles after `k`, and context that had not closed by then, change neither
      a decision up to `k` nor any trade that has ended by `k`. */
  lemma NoLookAhead(cfg: Config, df: seq<Candle>, context: seq<ContextRow>,
                    df': seq<Candle>, context': seq<ContextRow>, k: nat)
    requires SameUntil(df, context, df', context', k) && ClosesInOrder(df)
    ensures AgreeBy(OpenedBy(Trades(cfg, df, context), k), OpenedBy(Trades(cfg, df', context'), k), k)
  {
    WalksAgree(cfg, df, context, df', context', k, WarmUp(|df|));
  }

  // ---- What the strategy is shown, and which candles trade --------------------------------

  /** A relation between what a strategy is shown and the signal it returns. */
  type Relation = (seq<Candle>, seq<ContextRow>, Signal) -> bool

  ghost predicate Keeps(strategy: Strategy, relation: Relation) {
    forall rows: seq<Candle>, ctx: seq<ContextRow> ::
      strategy(rows, ctx).Found? ==> relation(rows, ctx, strategy(rows, ctx).signal)
  }

  /** The rows up to and including candle `i`, at most `evalWindow` of them. */
  function RowsUpTo(df: seq<Candle>, i: nat, evalWindow: nat): (rows: seq<Candle>)
    requires i < |df|
    ensures |rows| == MinInt(i + 1, evalWindow)
    ensures evalWindow > 0 ==> rows[|rows| - 1] == df[i]
  {
    var upTo := df[..i + 1];
    if |upTo| <= evalWindow then upTo else upTo[|upTo| - evalWindow..]
  }

  /** The last `window` of the context rows that have closed by `cutoff`. */
  function ContextUpTo(context: seq<ContextRow>, cutoff: int, window: nat): seq<ContextRow> {
    var closed := ClosedBy(context, cutoff);
    if |closed| <= window then closed else closed[|closed| - window..]
  }

  /** A decision in plain terms: candle `i` opens a trade exactly when the long engine, or the short
      one after a silent long one where a second pass is made, finds this signal on the rows up to
      and including `i` and the context closed by then, and the signal is not a blocked short,
      scores at least one and has positive prices. */
  lemma OpensIff(cfg: Config, df: seq<Candle>, context: seq<ContextRow>, i: nat, signal: Signal)
    requires i < |df|
    ensures var rows := RowsUpTo(df, i, cfg.evalWindow);
      var ctx := ContextUpTo(context, df[i].closeTime, cfg.contextWindow);
      Decide(cfg, df, context, i) == Open(signal) <==>
        && (|| cfg.long(rows, ctx) == Found(signal)
            || (cfg.long(rows, ctx) == Silent && cfg.secondPass && cfg.short(rows, ctx) == Found(signal)))
        && !(cfg.blockSell && signal.levels.side == Sell)
        && signal.score >= 1.0
        && signal.levels.entry > 0.0 && signal.levels.stop > 0.0 && signal.levels.tp > 0.0
  {
    assert Window(cfg, df, i) == RowsUpTo(df, i, cfg.evalWindow);
    assert ContextAt(cfg, context, df[i].closeTime) == ContextUpTo(context, df[i].closeTime, cfg.contextWindow);
  }

  /** Every trade of a simulation was opened by the decision on its own candle, from candle `i` on. */
  lemma {:induction false} TradesAreDecided(cfg: Config, df: seq<Candle>, context: seq<ContextRow>, i: nat)
    ensures forall t :: t in TradesFrom(cfg, df, context, i) ==>
      i <= t.candle && t.candle + 1 < |df| && Decide(cfg, df, context, t.candle) == Open(t.signal)
    decreases |df| - i
  {
    if i + 1 < |df| {
      match Decide(cfg, df, context, i) {
        case Open(_) => TradesAreDecided(cfg, df, context, i + SKIP_AFTER_SIGNAL);
        case _ => TradesAreDecided(cfg, df, context, i + 1);
      }
    }
  }

  /** Whatever both engines guarantee about a signal and the rows and context they are shown holds for
      every trade with the rows up to and including its own candle and the context closed by then. */
  lemma TradesSeeTheirCandle(cfg: Config, df: seq<Candle>, context: seq<ContextRow>, relation: Relation, t: Trade)
    requires Keeps(cfg.long, relation) && Keeps(cfg.short, relation)
    requires t in Trades(cfg, df, context)
    ensures t.candle < |df|
    ensures relation(RowsUpTo(df, t.candle, cfg.evalWindow),
                     ContextUpTo(context, df[t.candle].closeTime, cfg.contextWindow), t.signal)
  {
    TradesAreDecided(cfg, df, context, WarmUp(|df|));
    OpensIff(cfg, df, context, t.candle, t.signal);
  }

  predicate EntersAtClose(rows: seq<Candle>, ctx: seq<ContextRow>, signal: Signal) {
    |rows| > 0 ==> signal.levels.entry == rows[|rows| - 1].close
  }

  /** Engines that enter at the close of the last row they see enter at the close of the signal candle. */
  lemma TradesEnterAtTheirClose(cfg: Config, df: seq<Candle>, context: seq<ContextRow>, t: Trade)
    requires cfg.evalWindow > 0 && t in Trades(cfg, df, context)
    requires Keeps(cfg.long, EntersAtClose) && Keeps(cfg.short, EntersAtClose)
    ensures t.candle < |df| && t.signal.levels.entry == df[t.candle].close
  {
    TradesSeeTheirCandle(cfg, df, context, EntersAtClose, t);
  }

  predicate ScoresRows(rows: seq<Candle>, ctx: seq<ContextRow>, signal: Signal) {
    signal.score == |rows| as real
  }

  /** Engines that score by the number of rows they see score by how many there were. */
  lemma TradesSeeWholeWindow(cfg: Config, df: seq<Candle>, context: seq<ContextRow>, t: Trade)
    requires t in Trades(cfg, df, context)
    requires Keeps(cfg.long, ScoresRows) && Keeps(cfg.short, ScoresRows)
    ensures t.signal.score == MinInt(t.candle + 1, cfg.evalWindow) as real
  {
    TradesSeeTheirCandle(cfg, df, context, ScoresRows, t);
  }

  predicate HasTradeAt(trades: seq<Trade>, candle: int) {
    exists t :: t in trades && t.candle == candle
  }

  predicate HasTradeIn(trades: seq<Trade>, from: int, to: int) {
    exists t :: t in trades && from <= t.candle < to
  }

  lemma SameBehindFirst(t: Trade, rest: seq<Trade>, c: nat)
    requires t.candle + 10 <= c
    ensures HasTradeAt([t] + rest, c) == HasTradeAt(rest, c)
    ensures HasTradeIn([t] + rest, c - 9, c) == HasTradeIn(rest, c - 9, c)
  {
    if HasTradeAt(rest, c) {
      var u :| u in rest && u.candle == c;
      assert u in [t] + rest;
    }
    if HasTradeIn(rest, c - 9, c) {
      var u :| u in rest && c - 9 <= u.candle < c;
      assert u in [t] + rest;
    }
  }

  lemma FirstBlocksNine(t: Trade, rest: seq<Trade>, c: nat)
    requires t.candle <= c < t.candle + 10 && forall u :: u in rest ==> u.candle >= t.candle + 10
    ensures HasTradeAt([t] + rest, c) <==> c == t.candle
    ensures HasTradeIn([t] + rest, c - 9, c) <==> c > t.candle
  {
    assert t in [t] + rest;
  }

  /** The candle trades exactly when its decision opens and none of the nine before it traded. */
  predicate TradesWhenFree(cfg: Config, df: seq<Candle>, context: seq<ContextRow>, trades: seq<Trade>, c: nat)
    requires c < |df|
  {
    HasTradeAt(trades, c) <==> Decide(cfg, df, context, c).Open? && !HasTradeIn(trades, c - 9, c)
  }

  lemma NearTrade(cfg: Config, df: seq<Candle>, context: seq<ContextRow>, i: nat, c: nat)
    requires i <= c < i + 10 && c + 1 < |df| && Decide(cfg, df, context, i).Open?
    ensures TradesWhenFree(cfg, df, context, TradesFrom(cfg, df, context, i), c)
  {
    TradesAreDecided(cfg, df, context, i + 10);
    FirstBlocksNine(TradeAt(cfg, df, i, Decide(cfg, df, context, i).signal), TradesFrom(cfg, df, context, i + 10), c);
  }

  lemma BehindTrade(cfg: Config, df: seq<Candle>, context: seq<ContextRow>, i: nat, c: nat)
    requires i + 10 <= c && c + 1 < |df| && Decide(cfg, df, context, i).Open?
    requires TradesWhenFree(cfg, df, context, TradesFrom(cfg, df, context, i + 10), c)
    ensures TradesWhenFree(cfg, df, context, TradesFrom(cfg, df, context, i), c)
  {
    SameBehindFirst(TradeAt(cfg, df, i, Decide(cfg, df, context, i).signal), TradesFrom(cfg, df, context, i + 10), c);
  }

  lemma NoTradeHere(cfg: Config, df: seq<Candle>, context: seq<ContextRow>, i: nat)
    requires i + 1 < |df| && !Decide(cfg, df, context, i).Open?
    ensures TradesWhenFree(cfg, df, context, TradesFrom(cfg, df, context, i), i)
    ensures TradesFrom(cfg, df, context, i) == TradesFrom(cfg, df, context, i + 1)
  {
    TradesAreDecided(cfg, df, context, i);
  }

  /** From the warm-up on, a candle trades exactly when its decision opens and none of the nine before
      it traded. */
  lemma {:induction false} TradesIff(cfg: Config, df: seq<Candle>, context: seq<ContextRow>, i: nat, c: nat)
    requires i <= c && c + 1 < |df|
    ensures TradesWhenFree(cfg, df, context, TradesFrom(cfg, df, context, i), c)
    decreases |df| - i
  {
    if Decide(cfg, df, context, i).Open? {
      if c < i + 10 {
        NearTrade(cfg, df, context, i, c);
      } else {
        TradesIff(cfg, df, context, i + 10, c);
        BehindTrade(cfg, df, context, i, c);
      }
    } else {
      NoTradeHere(cfg, df, context, i);
      if c > i {
        TradesIff(cfg, df, context, i + 1, c);
      }
    }
  }

  /** The whole simulation: it starts behind the warm-up, never on the last candle. */
  lemma SimulationTradesIff(cfg: Config, df: seq<Candle>, context: seq<ContextRow>, c: nat)
    requires c < |df|
    ensures var trades, first := Trades(cfg, df, context), MinInt(230, MaxInt(20, |df| / 2));
      HasTradeAt(trades, c) <==>
        && first <= c < |df| - 1
        && Decide(cfg, df, context, c).Open? && !HasTradeIn(trades, c - 9, c)
  {
    var first := MinInt(230, MaxInt(20, |df| / 2));
    TradesAreDecided(cfg, df, context, first);
    if first <= c < |df| - 1 {
      TradesIff(cfg, df, context, first, c);
    }
  }

  // ---- Profit -----------------------------------------------------------------------------

  /** Relative move from entry to exit in the trade's favour. */
  function Move(t: Trade): real
    requires t.signal.levels.entry > 0.0
  {
    var l := t.signal.levels;
    (if l.side == Buy then t.exit.price - l.entry else l.entry - t.exit.price) / l.entry
  }

  /** A trade earns its notional times the relative move, less the commission of two sides on the
      notional, whatever the entry price. */
  lemma TradeProfit(cfg: Config, df: seq<Candle>, i: nat, signal: Signal)
    requires i + 1 < |df| && signal.levels.entry > 0.0
    ensures var t := TradeAt(cfg, df, i, signal);
      t.pnl == cfg.notional * Move(t) - cfg.notional * COMMISSION_PCT * 2.0
  {
    var t, entry := TradeAt(cfg, df, i, signal), signal.levels.entry;
    var qty := cfg.notional / entry;
    var d := if signal.levels.side == Buy then t.exit.price - entry else entry - t.exit.price;
    assert qty * entry == cfg.notional;
    assert d * qty == cfg.notional * (d / entry);
  }

  // ---- Overlap ----------------------------------------------------------------------------

  /** How many of the trades were opened before candle `c` and are still running into it. */
  function RunningAt(trades: seq<Trade>, c: nat): nat {
    if trades == [] then 0
    else (if trades[0].candle < c <= trades[0].exit.at then 1 else 0) + RunningAt(trades[1..], c)
  }

  /** ceil(MAX_CANDLES_HOLD / SKIP_AFTER_SIGNAL) */
  const MAX_OVERLAP := (MAX_CANDLES_HOLD + SKIP_AFTER_SIGNAL - 1) / SKIP_AFTER_SIGNAL

  function OverlapBound(c: nat, i: nat): nat {
    if i >= c then 0 else MinInt(MAX_OVERLAP, (c - i + SKIP_AFTER_SIGNAL - 1) / SKIP_AFTER_SIGNAL)
  }

  lemma RunningAtCons(t: Trade, rest: seq<Trade>, c: nat)
    ensures RunningAt([t] + rest, c) == (if t.candle < c <= t.exit.at then 1 else 0) + RunningAt(rest, c)
  {
    assert ([t] + rest)[1..] == rest;
  }

  /** The bound leaves room for one more trade at `i`. */
  lemma OverlapRoom(c: nat, i: nat, end: nat)
    requires i < end <= i + MAX_CANDLES_HOLD
    ensures (if i < c <= end then 1 else 0) + OverlapBound(c, i + SKIP_AFTER_SIGNAL) <= OverlapBound(c, i)
    ensures OverlapBound(c, i + 1) <= OverlapBound(c, i)
  {
  }

  lemma {:induction false} OverlapFrom(cfg: Config, df: seq<Candle>, context: seq<ContextRow>, c: nat, i: nat)
    ensures RunningAt(TradesFrom(cfg, df, context, i), c) <= OverlapBound(c, i)
    decreases |df| - i
  {
    if i + 1 < |df| {
      match Decide(cfg, df, context, i) {
        case Open(signal) =>
          ExitFromIsExit(df, i, signal.levels, i + 1);
          OverlapRoom(c, i, ExitOf(df, i, signal.levels).at);
          OverlapFrom(cfg, df, context, c, i + SKIP_AFTER_SIGNAL);
          RunningAtCons(TradeAt(cfg, df, i, signal), TradesFrom(cfg, df, context, i + SKIP_AFTER_SIGNAL), c);
        case _ =>
          OverlapRoom(c, i, i + 1);
          OverlapFrom(cfg, df, context, c, i + 1);
      }
    }
  }

  /** Trades do overlap, since only ten candles are skipped after each, but never more than five
      run into the same candle. */
  lemma AtMostFiveOverlap(cfg: Config, df: seq<Candle>, context: seq<ContextRow>, c: nat)
    ensures RunningAt(Trades(cfg, df, context), c) <= MAX_OVERLAP == 5
  {
    OverlapFrom(cfg, df, context, c, WarmUp(|df|));
  }
}
