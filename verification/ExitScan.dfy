/** The exit of one simulated trade (backtest/backtest.py, lines 664-715): which candle ends
    it, with which result, at which price. */
module ExitScan {
  import opened Common

  const MAX_CANDLES_HOLD := 50

  /** One candle of the simulated frame; `rest` holds its other columns, indicators included, None where
      a column has no value yet. */
  datatype Candle = Candle(high: real, low: real, close: real, closeTime: int, rest: seq<Option<real>>)

  datatype Levels = Levels(side: Side, entry: real, stop: real, tp: real)

  datatype Result = Win | Loss | Timeout

  datatype Exit = Exit(result: Result, price: real, at: nat, held: nat)

  predicate TouchesTp(c: Candle, l: Levels) {
    if l.side == Buy then c.high >= l.tp else c.low <= l.tp
  }

  predicate TouchesStop(c: Candle, l: Levels) {
    if l.side == Buy then c.low <= l.stop else c.high >= l.stop
  }

  predicate Touches(c: Candle, l: Levels) {
    TouchesTp(c, l) || TouchesStop(c, l)
  }

  /** The last candle a trade opened on candle `i` may last to. */
  function Horizon(n: nat, i: nat): (h: int) {
    MinInt(i + MAX_CANDLES_HOLD, n - 1)
  }

  /** What the scan must find: the first candle after `i` that touches either level decides,
      the stop wins a candle that touches both, and only when none does is the trade closed
      at the horizon's close. */
  ghost predicate IsExit(df: seq<Candle>, i: nat, l: Levels, e: Exit)
    requires i + 1 < |df|
  {
    && i < e.at <= Horizon(|df|, i)
    && e.held == e.at - i
    && (forall j :: i < j < e.at ==> !Touches(df[j], l))
    && match e.result {
         case Loss => TouchesStop(df[e.at], l) && e.price == l.stop
         case Win => TouchesTp(df[e.at], l) && !TouchesStop(df[e.at], l) && e.price == l.tp
         case Timeout => e.at == Horizon(|df|, i) && !Touches(df[e.at], l) && e.price == df[e.at].close
       }
  }

  /** The specification determines the exit. */
  lemma ExitIsUnique(df: seq<Candle>, i: nat, l: Levels, e: Exit, f: Exit)
    requires i + 1 < |df| && IsExit(df, i, l, e) && IsExit(df, i, l, f)
    ensures e == f
  {
    assert e.result != Timeout ==> Touches(df[e.at], l);
    assert f.result != Timeout ==> Touches(df[f.at], l);
  }

  /** The exit as a function: the scan from candle `j` on. */
  function ExitFrom(df: seq<Candle>, i: nat, l: Levels, j: nat): Exit
    requires i < j <= Horizon(|df|, i) && i + 1 < |df|
    decreases Horizon(|df|, i) - j
  {
    if TouchesStop(df[j], l) then Exit(Loss, l.stop, j, j - i)
    else if TouchesTp(df[j], l) then Exit(Win, l.tp, j, j - i)
    else if j == Horizon(|df|, i) then Exit(Timeout, df[j].close, j, j - i)
    else ExitFrom(df, i, l, j + 1)
  }

  function ExitOf(df: seq<Candle>, i: nat, l: Levels): Exit
    requires i + 1 < |df|
  {
    ExitFrom(df, i, l, i + 1)
  }

  lemma {:induction false} ExitFromIsExit(df: seq<Candle>, i: nat, l: Levels, j: nat)
    requires i + 1 < |df| && i < j <= Horizon(|df|, i)
    requires forall m :: i < m < j ==> !Touches(df[m], l)
    ensures IsExit(df, i, l, ExitFrom(df, i, l, j))
    decreases Horizon(|df|, i) - j
  {
    if !Touches(df[j], l) && j < Horizon(|df|, i) {
      ExitFromIsExit(df, i, l, j + 1);
    }
  }

  /** The scan loop, with the program's own order of tests on each side. */
  method ScanExit(df: seq<Candle>, i: nat, l: Levels) returns (e: Exit)
    requires i + 1 < |df|
    ensures IsExit(df, i, l, e)
    ensures e == ExitOf(df, i, l)
  {
    var timeoutAt := MinInt(i + MAX_CANDLES_HOLD, |df| - 1);
    var result, price, at, held := Timeout, df[timeoutAt].close, timeoutAt, 0;
    for j := i + 1 to MinInt(i + MAX_CANDLES_HOLD + 1, |df|)
      invariant result == Timeout && price == df[timeoutAt].close && at == timeoutAt
      invariant held == j - 1 - i
      invariant forall m :: i < m < j ==> !Touches(df[m], l)
    {
      held := j - i;
      var c := df[j];
      if l.side == Buy {
        if c.high >= l.tp && c.low <= l.stop {
          result, price, at := Loss, l.stop, j;
          break;
        }
        if c.high >= l.tp {
          result, price, at := Win, l.tp, j;
          break;
        }
        if c.low <= l.stop {
          result, price, at := Loss, l.stop, j;
          break;
        }
      } else {
        if c.low <= l.tp && c.high >= l.stop {
          result, price, at := Loss, l.stop, j;
          break;
        }
        if c.low <= l.tp {
          result, price, at := Win, l.tp, j;
          break;
        }
        if c.high >= l.stop {
          result, price, at := Loss, l.stop, j;
          break;
        }
      }
    }
    e := Exit(result, price, at, held);
    ExitFromIsExit(df, i, l, i + 1);
    ExitIsUnique(df, i, l, e, ExitOf(df, i, l));
  }

  /** A long in plain terms: until its exit every candle stays strictly between the levels; it loses
      exactly when the exit candle's low reaches the stop, wins exactly when only the high reaches the
      target, and otherwise ends on the fiftieth candle or the last one of the frame. */
  lemma LongExit(df: seq<Candle>, i: nat, l: Levels)
    requires i + 1 < |df| && l.side == Buy
    ensures var e := ExitOf(df, i, l);
      && i < e.at < |df| && e.at <= i + 50 && e.held == e.at - i
      && (forall j :: i < j < e.at ==> l.stop < df[j].low && df[j].high < l.tp)
      && (e.result == Loss <==> df[e.at].low <= l.stop)
      && (e.result == Win <==> df[e.at].high >= l.tp && l.stop < df[e.at].low)
      && e.price == (match e.result case Loss => l.stop case Win => l.tp case Timeout => df[e.at].close)
      && (e.result == Timeout ==> e.at == i + 50 || e.at == |df| - 1)
  {
    ExitFromIsExit(df, i, l, i + 1);
  }

  lemma ShortExit(df: seq<Candle>, i: nat, l: Levels)
    requires i + 1 < |df| && l.side == Sell
    ensures var e := ExitOf(df, i, l);
      && i < e.at < |df| && e.at <= i + 50 && e.held == e.at - i
      && (forall j :: i < j < e.at ==> l.tp < df[j].low && df[j].high < l.stop)
      && (e.result == Loss <==> df[e.at].high >= l.stop)
      && (e.result == Win <==> df[e.at].low <= l.tp && df[e.at].high < l.stop)
      && e.price == (match e.result case Loss => l.stop case Win => l.tp case Timeout => df[e.at].close)
      && (e.result == Timeout ==> e.at == i + 50 || e.at == |df| - 1)
  {
    ExitFromIsExit(df, i, l, i + 1);
  }

  function GrossPnl(l: Levels, exitPrice: real, qty: real): real {
    if l.side == Buy then (exitPrice - l.entry) * qty else (l.entry - exitPrice) * qty
  }

  /** With the levels in order a win makes money and a loss loses it, on either side. */
  lemma ResultsPay(df: seq<Candle>, i: nat, l: Levels, qty: real)
    requires i + 1 < |df| && qty > 0.0
    requires if l.side == Buy then l.stop < l.entry < l.tp else l.tp < l.entry < l.stop
    ensures var e := ExitOf(df, i, l);
      && (e.result == Win ==> GrossPnl(l, e.price, qty) > 0.0)
      && (e.result == Loss ==> GrossPnl(l, e.price, qty) < 0.0)
  {
    ExitFromIsExit(df, i, l, i + 1);
    var e := ExitOf(df, i, l);
    var move := if l.side == Buy then e.price - l.entry else l.entry - e.price;
    ScaleLess(0.0, move, qty);
    ScaleLess(move, 0.0, qty);
  }

  // ---- A short is a long on the mirrored market -------------------------------------------

  function MirrorCandle(c: Candle): Candle {
    Candle(-c.low, -c.high, -c.close, c.closeTime, c.rest)
  }

  function MirrorFrame(df: seq<Candle>): (m: seq<Candle>) {
    seq(|df|, j requires 0 <= j < |df| => MirrorCandle(df[j]))
  }

  function MirrorLevels(l: Levels): Levels {
    Levels(if l.side == Buy then Sell else Buy, -l.entry, -l.stop, -l.tp)
  }

  lemma MirrorTouches(df: seq<Candle>, l: Levels)
    ensures var m := MirrorFrame(df);
      && |m| == |df|
      && forall j :: 0 <= j < |df| ==>
           && m[j].close == -df[j].close
           && (TouchesTp(m[j], MirrorLevels(l)) <==> TouchesTp(df[j], l))
           && (TouchesStop(m[j], MirrorLevels(l)) <==> TouchesStop(df[j], l))
  {
  }

  lemma MirrorIsExit(df: seq<Candle>, i: nat, l: Levels, e: Exit)
    requires i + 1 < |df| && IsExit(df, i, l, e)
    ensures IsExit(MirrorFrame(df), i, MirrorLevels(l), e.(price := -e.price))
  {
    MirrorTouches(df, l);
  }

  /** Swapping the side and negating every price keeps the exit candle, the result, the
      holding time and the gross profit. */
  lemma MirrorKeepsOutcome(df: seq<Candle>, i: nat, l: Levels, qty: real)
    requires i + 1 < |df|
    ensures var e, m := ExitOf(df, i, l), ExitOf(MirrorFrame(df), i, MirrorLevels(l));
      && m == e.(price := -e.price)
      && GrossPnl(MirrorLevels(l), m.price, qty) == GrossPnl(l, e.price, qty)
  {
    ExitFromIsExit(df, i, l, i + 1);
    ExitFromIsExit(MirrorFrame(df), i, MirrorLevels(l), i + 1);
    var e, m := ExitOf(df, i, l), ExitOf(MirrorFrame(df), i, MirrorLevels(l));
    MirrorIsExit(df, i, l, e);
    ExitIsUnique(MirrorFrame(df), i, MirrorLevels(l), e.(price := -e.price), m);
  }
}
