/** The 1d compression engine and the 15m short engine (strategy.py, `_evaluate_nr4_1d` and
    `_evaluate_short_15m`). */
module OtherEngines {
  import opened Common
  import opened Signals

  // ---- NR4, 1d ----------------------------------------------------------------------------

  const NR4_ROWS := 14

  /** Sum and number of the ATR values present. */
  function AtrSum(rows: seq<Row>): (real, nat) {
    if rows == [] then (0.0, 0)
    else
      var (sum, n) := AtrSum(rows[..|rows| - 1]);
      var last := rows[|rows| - 1];
      if last.atr.Some? then (sum + last.atr.value, n + 1) else (sum, n)
  }

  /** Mean ATR of the last ten rows; NaN values are skipped. */
  function Atr10(df: seq<Row>): real
    requires |df| >= NR4_ROWS
  {
    var (sum, n) := AtrSum(df[|df| - 10..]);
    if n == 0 then 0.0 else sum / n as real
  }

  datatype Nr4 = Nr4(highA: real, lowA: real, highB: real, lowB: real, s: Row, c: Row, atr10: real)

  function Nr4Of(df: seq<Row>): Nr4
    requires |df| >= NR4_ROWS
  {
    var n := |df|;
    Nr4(df[n - 4].high, df[n - 4].low, df[n - 3].high, df[n - 3].low, df[n - 2], df[n - 1], Atr10(df))
  }

  /** All values the engine reads are there and usable. */
  predicate Nr4Usable(x: Nr4) {
    && x.s.avgVol.Some? && x.s.emaFast.Some? && x.s.emaMid.Some? && x.s.emaTrend.Some? && x.s.rsi.Some?
    && x.c.emaFast.Some? && x.c.atr.Some? && x.c.avgVol.Some? && x.c.atrAvg.Some?
    && x.c.atr.value > 0.0 && x.s.avgVol.value > 0.0 && x.c.avgVol.value > 0.0 && x.atr10 > 0.0
    && x.highA - x.lowA > 0.0 && x.highB - x.lowB > 0.0
  }

  function Nr4Score(x: Nr4): real
    requires Nr4Usable(x)
  {
    var avg := ((x.highA - x.lowA) + (x.highB - x.lowB)) / 2.0;
    var body := BodyRatio(x.s.open, x.s.high, x.s.low, x.s.close);
    var vol := Ratio(x.s.volume, x.s.avgVol.value, 0.0);
    var rsi := x.s.rsi.value;
    Round2(
      (if avg < 0.60 * x.atr10 then 0.8 else if avg < 0.75 * x.atr10 then 0.5 else 0.0) +
      (if body >= 0.56 then 0.6 else if body >= 0.48 then 0.4 else 0.0) +
      (if vol >= 1.35 then 0.35 else if vol >= 1.20 then 0.2 else 0.0) +
      (if 54.0 <= rsi <= 59.5 then 0.5 else if 53.0 <= rsi <= 61.0 then 0.25 else 0.0))
  }

  function Nr4Stop(x: Nr4): real
    requires Nr4Usable(x)
  {
    MinReal(x.lowA, x.lowB) - 0.3 * x.c.atr.value
  }

  /** Two narrow days, a strong breakout day, and a close that confirms without chasing. */
  predicate Nr4Setup(cfg: Config, x: Nr4, ctx: Context)
    requires Nr4Usable(x)
  {
    var atr := x.c.atr.value;
    && x.highA - x.lowA < 0.90 * x.atr10 && x.highB - x.lowB < 0.90 * x.atr10
    && x.s.close > MaxReal(x.highA, x.highB) + 0.015 * atr
    && x.s.emaFast.value > x.s.emaMid.value > x.s.emaTrend.value
    && x.s.high - x.s.low > 0.0
    && x.s.close > x.s.open && BodyRatio(x.s.open, x.s.high, x.s.low, x.s.close) >= 0.48
    && Ratio(x.s.volume, x.s.avgVol.value, 0.0) >= 1.20
    && x.s.high + 0.03 * atr < x.c.close <= x.s.high + 0.40 * atr
    && x.c.close <= x.c.emaFast.value + 1.10 * atr
    && 52.0 <= x.s.rsi.value <= 62.0
    && Ratio(atr, x.c.atrAvg.value, 1.0) <= cfg.maxAtrRatio
    && TrendOf(cfg, ctx) != NotBullish
    && Nr4Score(x) >= 1.90
    && RiskFits(cfg, x.c.close - Nr4Stop(x), atr)
  }

  function LongSignal(price: real, stop: real, rr: real, atr: real, score: real, bias: Bias): Signal {
    Signal(Buy, price, stop, price + (price - stop) * rr, price - stop, rr, atr, score, bias)
  }

  method EvaluateNr4(df: seq<Row>, ctx: Context, cfg: Config, log: RejectLog?) returns (signal: Option<Signal>)
    requires log != null ==> log.Valid()
    modifies log
    ensures log != null ==> log.Valid()
    ensures signal.Some? <==> |df| >= NR4_ROWS && Nr4Usable(Nr4Of(df)) && Nr4Setup(cfg, Nr4Of(df), ctx)
    ensures signal.Some? ==> var x := Nr4Of(df);
      signal.value == LongSignal(x.c.close, Nr4Stop(x), 2.5, x.c.atr.value, Nr4Score(x), LongBias)
    ensures log != null && signal.Some? ==> log.bumps == old(log.bumps)
    ensures log != null && signal.None? ==> log.bumps == old(log.bumps) || OneMore(old(log.bumps), log.bumps)
  {
    if |df| < NR4_ROWS {
      return None;
    }
    var x := Nr4Of(df);
    if !Nr4Usable(x) {
      return None;
    }
    var s, atr := x.s, x.c.atr.value;
    if !(x.highA - x.lowA < 0.90 * x.atr10 && x.highB - x.lowB < 0.90 * x.atr10) {
      BumpReject(log, "reject_nr4_compression");
      return None;
    }
    if s.close <= MaxReal(x.highA, x.highB) + 0.015 * atr {
      BumpReject(log, "reject_nr4_breakout");
      return None;
    }
    if !(s.emaFast.value > s.emaMid.value > s.emaTrend.value) {
      BumpReject(log, "reject_nr4_trend");
      return None;
    }
    if s.high - s.low <= 0.0 {
      return None;
    }
    if !(s.close > s.open && BodyRatio(s.open, s.high, s.low, s.close) >= 0.48) {
      BumpReject(log, "reject_nr4_signal_body");
      return None;
    }
    if Ratio(s.volume, s.avgVol.value, 0.0) < 1.20 {
      BumpReject(log, "reject_nr4_signal_volume");
      return None;
    }
    if x.c.close <= s.high + 0.03 * atr || x.c.close > s.high + 0.40 * atr
       || x.c.close > x.c.emaFast.value + 1.10 * atr {
      BumpReject(log, "reject_nr4_confirmation");
      return None;
    }
    if !(52.0 <= s.rsi.value <= 62.0) {
      BumpReject(log, "reject_nr4_signal_rsi");
      return None;
    }
    if Ratio(atr, x.c.atrAvg.value, 1.0) > cfg.maxAtrRatio {
      BumpReject(log, "reject_nr4_atr_spike");
      return None;
    }
    if TrendOf(cfg, ctx) == NotBullish {
      BumpReject(log, "reject_nr4_htf");
      return None;
    }
    if Nr4Score(x) < 1.90 {
      BumpReject(log, "reject_nr4_score");
      return None;
    }
    var entry, stop := x.c.close, Nr4Stop(x);
    var risk := entry - stop;
    if risk < cfg.minRisk * atr || risk > cfg.maxRisk * atr {
      BumpReject(log, "reject_nr4_risk");
      return None;
    }
    signal := Some(Signal(Buy, entry, stop, entry + risk * 2.5, risk, 2.5, atr, Nr4Score(x), LongBias));
  }

  // ---- Mean-reversion short, 15m ----------------------------------------------------------

  /** Signal candle complete and usable; of the confirmation candle only raw columns are read. */
  predicate ShortUsable(df: seq<Row>) {
    |df| >= 3 && df[|df| - 1].emaFast.Some? &&
    var s := Complete(df[|df| - 2]);
    s.Some? && s.value.atr > 0.0 && s.value.avgVol > 0.0 && s.value.high - s.value.low > 0.0
  }

  function Extension(s: Bar): real
    requires s.atr > 0.0
  {
    (s.high - s.emaFast) / s.atr
  }

  function ShortPenalty(cfg: Config, ctx: Context): real {
    match TrendOf(cfg, ctx)
    case Absent => 0.15
    case Bullish => 0.25
    case _ => 0.0
  }

  function ShortScore(cfg: Config, s: Bar, ctx: Context): real
    requires s.atr > 0.0
  {
    Round2(0.8 * BodyRatio(s.open, s.high, s.low, s.close)
           + 0.7 * MinReal(1.0, (Extension(s) - 1.80) / 0.80)
           + 0.6 * MinReal(1.0, (s.rsi - 70.0) / 10.0)
           + (if Ratio(s.volume, s.avgVol, 0.0) >= 1.30 then 0.3 else 0.0)
           - ShortPenalty(cfg, ctx))
  }

  function ShortStop(s: Bar): real {
    s.high + 0.30 * s.atr
  }

  /** An overextended bull candle that turns, on volume, confirmed by a close below its low. */
  predicate ShortSetup(cfg: Config, s: Bar, c: Row, ctx: Context)
    requires s.atr > 0.0
  {
    && s.emaFast > s.emaMid
    && Extension(s) >= 1.80
    && (s.emaFast - s.emaMid) / s.atr < 1.20
    && 70.0 <= s.rsi <= 74.0
    && s.close < s.open && BodyRatio(s.open, s.high, s.low, s.close) >= 0.65
    && s.close < s.high - (2.0 / 3.0) * (s.high - s.low)
    && Ratio(s.volume, s.avgVol, 0.0) >= 1.10
    && Ratio(s.atr, s.atrAvg, 1.0) <= cfg.maxAtrRatio
    && c.close < c.open && c.close < s.low && BodyRatio(c.open, c.high, c.low, c.close) >= 0.35
    && (TrendOf(cfg, ctx) == Bullish ==> Extension(s) >= 2.50)
    && ShortScore(cfg, s, ctx) >= 1.30
    && RiskFits(cfg, ShortStop(s) - c.close, s.atr)
  }

  function ShortSignal(price: real, stop: real, rr: real, atr: real, score: real): Signal {
    Signal(Sell, price, stop, price - (stop - price) * rr, stop - price, rr, atr, score, ShortBias)
  }

  method EvaluateShort15m(df: seq<Row>, ctx: Context, cfg: Config, log: RejectLog?) returns (signal: Option<Signal>)
    requires log != null ==> log.Valid()
    modifies log
    ensures log != null ==> log.Valid()
    ensures signal.Some? <==>
      ShortUsable(df) && ShortSetup(cfg, Complete(df[|df| - 2]).value, df[|df| - 1], ctx)
    ensures signal.Some? ==> var s := Complete(df[|df| - 2]).value;
      signal.value == ShortSignal(df[|df| - 1].close, ShortStop(s), 1.5, s.atr, ShortScore(cfg, s, ctx))
    ensures log != null && signal.Some? ==> log.bumps == old(log.bumps)
    ensures log != null && signal.None? ==>
      log.bumps == old(log.bumps) || (ShortUsable(df) && OneMore(old(log.bumps), log.bumps))
  {
    if !ShortUsable(df) {
      return None;
    }
    var s, c := Complete(df[|df| - 2]).value, df[|df| - 1];
    if s.emaFast <= s.emaMid {
      BumpReject(log, "reject_short_no_extension_base");
      return None;
    }
    if Extension(s) < 1.80 {
      BumpReject(log, "reject_short_extension");
      return None;
    }
    if (s.emaFast - s.emaMid) / s.atr >= 1.20 {
      BumpReject(log, "reject_short_spread_wide");
      return None;
    }
    if !(70.0 <= s.rsi <= 74.0) {
      BumpReject(log, "reject_short_rsi");
      return None;
    }
    if !(s.close < s.open && BodyRatio(s.open, s.high, s.low, s.close) >= 0.65
         && s.close < s.high - (2.0 / 3.0) * (s.high - s.low)) {
      BumpReject(log, "reject_short_body");
      return None;
    }
    if Ratio(s.volume, s.avgVol, 0.0) < 1.10 {
      BumpReject(log, "reject_short_volume");
      return None;
    }
    if Ratio(s.atr, s.atrAvg, 1.0) > cfg.maxAtrRatio {
      BumpReject(log, "reject_short_atr_spike");
      return None;
    }
    if !(c.close < c.open && c.close < s.low && BodyRatio(c.open, c.high, c.low, c.close) >= 0.35) {
      BumpReject(log, "reject_short_confirmation");
      return None;
    }
    if TrendOf(cfg, ctx) == Bullish && Extension(s) < 2.50 {
      BumpReject(log, "reject_short_htf");
      return None;
    }
    var score := ShortScore(cfg, s, ctx);
    if score < 1.30 {
      BumpReject(log, "reject_short_score");
      return None;
    }
    var entry, stop := c.close, ShortStop(s);
    var risk := stop - entry;
    if risk < cfg.minRisk * s.atr || risk > cfg.maxRisk * s.atr {
      BumpReject(log, "reject_short_risk");
      return None;
    }
    signal := Some(Signal(Sell, entry, stop, entry - risk * 1.5, risk, 1.5, s.atr, score, ShortBias));
  }

  // ---- What the setups mean ---------------------------------------------------------------

  /** The compression breakout in plain arithmetic: both days narrower than 90 % of the mean ATR, the
      breakout candle's close above both highs, a body of 48 % of its range, a fifth more volume than
      average, and a confirming close between 3 % and 40 % of an ATR above its high. */
  lemma Nr4SetupIff(cfg: Config, x: Nr4, ctx: Context)
    requires Nr4Usable(x)
    ensures Nr4Setup(cfg, x, ctx) <==>
      var s, c, atr := x.s, x.c, x.c.atr.value;
      && x.highA - x.lowA < 0.90 * x.atr10 && x.highB - x.lowB < 0.90 * x.atr10
      && s.close - x.highA > 0.015 * atr && s.close - x.highB > 0.015 * atr
      && s.emaTrend.value < s.emaMid.value < s.emaFast.value
      && s.high > s.low && s.close > s.open && s.close - s.open >= 0.48 * (s.high - s.low)
      && s.volume >= 1.20 * s.avgVol.value
      && 0.03 * atr < c.close - s.high <= 0.40 * atr && c.close - c.emaFast.value <= 1.10 * atr
      && 52.0 <= s.rsi.value <= 62.0
      && (if c.atrAvg.value > 0.0 then atr <= cfg.maxAtrRatio * c.atrAvg.value else 1.0 <= cfg.maxAtrRatio)
      && !(ctx.rows > 0 && ctx.rows >= cfg.emaMid && ctx.rows >= cfg.emaTrend
           && ctx.emaMid.Some? && ctx.emaTrend.Some? && !(ctx.emaTrend.value < ctx.emaMid.value < ctx.price))
      && Nr4Score(x) >= 1.90
      && var low := if x.lowA < x.lowB then x.lowA else x.lowB;
         cfg.minRisk * atr <= c.close - low + 0.3 * atr <= cfg.maxRisk * atr
  {
    var s := x.s;
    if s.high > s.low {
      RatiosMultipliedOut(s.open, s.high, s.low, s.close, s.volume, s.avgVol.value, 0.48);
    }
    ShareAtLeast(s.volume, s.avgVol.value, 1.20);
    SpikeMultipliedOut(x.c.atr.value, x.c.atrAvg.value, cfg.maxAtrRatio);
    TrendSpeaksIff(cfg, ctx);
  }

  lemma ShortShares(s: Bar)
    requires s.atr > 0.0 && s.avgVol > 0.0
    ensures Extension(s) >= 1.80 <==> s.high - s.emaFast >= 1.80 * s.atr
    ensures Extension(s) >= 2.50 <==> s.high - s.emaFast >= 2.50 * s.atr
    ensures (s.emaFast - s.emaMid) / s.atr < 1.20 <==> s.emaFast - s.emaMid < 1.20 * s.atr
    ensures Ratio(s.volume, s.avgVol, 0.0) >= 1.10 <==> s.volume >= 1.10 * s.avgVol
  {
    ShareAtLeast(s.high - s.emaFast, s.atr, 1.80);
    ShareAtLeast(s.high - s.emaFast, s.atr, 2.50);
    ShareAtLeast(s.emaFast - s.emaMid, s.atr, 1.20);
    ShareAtLeast(s.volume, s.avgVol, 1.10);
  }

  lemma FallingBody(open: real, high: real, low: real, close: real, x: real)
    requires close < open && x > 0.0
    ensures BodyRatio(open, high, low, close) >= x <==> high > low && open - close >= x * (high - low)
  {
    if high > low {
      ShareAtLeast(open - close, high - low, x);
    }
  }

  /** The short in plain arithmetic: the high at least 1.8 ATR above the fast EMA, 2.5 in a bullish
      context, a falling candle of 65 % body closing in its lower third on ten per cent more volume
      than average, confirmed by a falling candle that closes below its low. */
  lemma ShortSetupIff(cfg: Config, s: Bar, c: Row, ctx: Context)
    requires s.atr > 0.0 && s.avgVol > 0.0 && s.high > s.low
    ensures ShortSetup(cfg, s, c, ctx) <==>
      && s.emaMid < s.emaFast
      && s.high - s.emaFast >= 1.80 * s.atr && s.emaFast - s.emaMid < 1.20 * s.atr
      && 70.0 <= s.rsi <= 74.0
      && s.close < s.open && s.open - s.close >= 0.65 * (s.high - s.low)
      && 3.0 * (s.high - s.close) > 2.0 * (s.high - s.low)
      && s.volume >= 1.10 * s.avgVol
      && (if s.atrAvg > 0.0 then s.atr <= cfg.maxAtrRatio * s.atrAvg else 1.0 <= cfg.maxAtrRatio)
      && c.close < c.open && c.close < s.low && c.high > c.low && c.open - c.close >= 0.35 * (c.high - c.low)
      && (s.high - s.emaFast >= 2.50 * s.atr
          || !(ctx.rows > 0 && ctx.rows >= cfg.emaMid && ctx.rows >= cfg.emaTrend && ctx.emaMid.Some?
               && ctx.emaTrend.Some? && ctx.emaTrend.value < ctx.emaMid.value < ctx.price))
      && ShortScore(cfg, s, ctx) >= 1.30
      && cfg.minRisk * s.atr <= s.high + 0.30 * s.atr - c.close <= cfg.maxRisk * s.atr
  {
    ShortShares(s);
    if s.close < s.open {
      FallingBody(s.open, s.high, s.low, s.close, 0.65);
    }
    if c.close < c.open {
      FallingBody(c.open, c.high, c.low, c.close, 0.35);
    }
    SpikeMultipliedOut(s.atr, s.atrAvg, cfg.maxAtrRatio);
    TrendSpeaksIff(cfg, ctx);
  }

  /** Adding up rows that all have an ATR, one after the other. */
  lemma AtrSumAddsUp(rows: seq<Row>, total: seq<real>)
    requires |total| == |rows| + 1 && total[0] == 0.0
    requires forall k :: 0 <= k < |rows| ==> rows[k].atr.Some? && total[k + 1] == total[k] + rows[k].atr.value
    ensures AtrSum(rows) == (total[|rows|], |rows|)
  {
    if rows != [] {
      var front := rows[..|rows| - 1];
      assert forall k :: 0 <= k < |front| ==> front[k] == rows[k];
      AtrSumAddsUp(front, total[..|rows|]);
    }
  }

  /** When the last ten rows all have an ATR, the mean is the tenth of the sum of those ten. */
  lemma Atr10IsMean(df: seq<Row>, rows: seq<Row>, total: seq<real>)
    requires |df| >= NR4_ROWS && |total| == 11 && total[0] == 0.0
    requires |rows| == 10 && forall k :: 0 <= k < 10 ==> rows[k] == df[|df| - 10 + k]
    requires forall k :: 0 <= k < 10 ==> rows[k].atr.Some? && total[k + 1] == total[k] + rows[k].atr.value
    ensures Atr10(df) * 10.0 == total[10]
  {
    assert rows == df[|df| - 10..];
    AtrSumAddsUp(rows, total);
  }

  /** Behind the other gates a compression breakout scores enough exactly when both days together are
      narrower than 60 % of the mean ATR and one of the rest is only second best (or body and volume
      both are), or when the days are narrower than 75 % and everything else is at its best. */
  lemma Nr4ScorePassesIff(x: Nr4)
    requires Nr4Usable(x) && x.s.high > x.s.low && x.s.close > x.s.open
    requires x.s.close - x.s.open >= 0.48 * (x.s.high - x.s.low) && x.s.volume >= 1.20 * x.s.avgVol.value
    ensures
      var width := (x.highA - x.lowA) + (x.highB - x.lowB);
      var body, volume := x.s.close - x.s.open >= 0.56 * (x.s.high - x.s.low), x.s.volume >= 1.35 * x.s.avgVol.value;
      var rsi := x.s.rsi.value;
      Nr4Score(x) >= 1.90 <==>
        || (width < 1.20 * x.atr10 && 54.0 <= rsi <= 59.5)
        || (width < 1.20 * x.atr10 && body && volume && 53.0 <= rsi <= 61.0)
        || (width < 1.50 * x.atr10 && body && volume && 54.0 <= rsi <= 59.5)
  {
    var s, rsi := x.s, x.s.rsi.value;
    RatiosMultipliedOut(s.open, s.high, s.low, s.close, s.volume, s.avgVol.value, 0.48);
    RatiosMultipliedOut(s.open, s.high, s.low, s.close, s.volume, s.avgVol.value, 0.56);
    ShareAtLeast(s.volume, s.avgVol.value, 1.20);
    ShareAtLeast(s.volume, s.avgVol.value, 1.35);
    var avg := ((x.highA - x.lowA) + (x.highB - x.lowB)) / 2.0;
    var body := BodyRatio(s.open, s.high, s.low, s.close);
    var vol := Ratio(s.volume, s.avgVol.value, 0.0);
    var cents :=
      (if avg < 0.60 * x.atr10 then 80 else if avg < 0.75 * x.atr10 then 50 else 0) +
      (if body >= 0.56 then 60 else if body >= 0.48 then 40 else 0) +
      (if vol >= 1.35 then 35 else if vol >= 1.20 then 20 else 0) +
      (if 54.0 <= rsi <= 59.5 then 50 else if 53.0 <= rsi <= 61.0 then 25 else 0);
    Round2OfCents(cents);
    assert Nr4Score(x) == cents as real / 100.0;
  }

  lemma Nr4ScoreBound(x: Nr4)
    requires Nr4Usable(x)
    ensures Nr4Score(x) <= 2.25
  {
    var avg := ((x.highA - x.lowA) + (x.highB - x.lowB)) / 2.0;
    var body := BodyRatio(x.s.open, x.s.high, x.s.low, x.s.close);
    var vol := Ratio(x.s.volume, x.s.avgVol.value, 0.0);
    var raw :=
      (if avg < 0.60 * x.atr10 then 0.8 else if avg < 0.75 * x.atr10 then 0.5 else 0.0) +
      (if body >= 0.56 then 0.6 else if body >= 0.48 then 0.4 else 0.0) +
      (if vol >= 1.35 then 0.35 else if vol >= 1.20 then 0.2 else 0.0) +
      (if 54.0 <= x.s.rsi.value <= 59.5 then 0.5 else if 53.0 <= x.s.rsi.value <= 61.0 then 0.25 else 0.0);
    Round2Monotone(raw, 2.25);
    assert Round2(2.25) == 2.25;
  }

  /** A compression breakout enters above both narrow days with its stop below both, so its risk is
      positive whatever band is configured, and its score is between 1.90 and 2.25. */
  lemma Nr4Means(cfg: Config, x: Nr4, ctx: Context)
    requires Nr4Usable(x) && Nr4Setup(cfg, x, ctx) && x.s.close <= x.s.high
    ensures var signal := LongSignal(x.c.close, Nr4Stop(x), 2.5, x.c.atr.value, Nr4Score(x), LongBias);
      && (signal.stop == x.lowA - 0.3 * x.c.atr.value || signal.stop == x.lowB - 0.3 * x.c.atr.value)
      && signal.stop < MinReal(x.lowA, x.lowB) && MaxReal(x.highA, x.highB) < signal.price
      && WellShaped(cfg, signal) && Ordered(signal)
      && 1.90 <= signal.score <= 2.25
  {
    var signal := LongSignal(x.c.close, Nr4Stop(x), 2.5, x.c.atr.value, Nr4Score(x), LongBias);
    OrderedIffRisk(cfg, signal);
    Nr4ScoreBound(x);
  }

  lemma ShortScoreBound(cfg: Config, s: Bar, ctx: Context)
    requires s.atr > 0.0 && s.low <= s.open <= s.high && s.low <= s.close <= s.high
    ensures ShortScore(cfg, s, ctx) <= 2.40
  {
    BodyWithinRange(s.open, s.high, s.low, s.close);
    var raw := 0.8 * BodyRatio(s.open, s.high, s.low, s.close)
               + 0.7 * MinReal(1.0, (Extension(s) - 1.80) / 0.80)
               + 0.6 * MinReal(1.0, (s.rsi - 70.0) / 10.0)
               + (if Ratio(s.volume, s.avgVol, 0.0) >= 1.30 then 0.3 else 0.0)
               - ShortPenalty(cfg, ctx);
    Round2Monotone(raw, 2.40);
    assert Round2(2.40) == 2.40;
  }

  /** The short's score, up to rounding: eight tenths of the body, seven for an extension of 2.6 ATR
      and above and in proportion from 1.8 on, six hundredths for each point of RSI above 70, three
      tenths for 1.3 times the average volume, less what the context costs. */
  lemma ShortScoreIs(cfg: Config, s: Bar, ctx: Context)
    requires s.atr > 0.0 && s.avgVol > 0.0 && 70.0 <= s.rsi <= 80.0
    ensures var reach := (s.high - s.emaFast) / s.atr - 1.80;
      var raw := 0.8 * BodyRatio(s.open, s.high, s.low, s.close) + (if reach >= 0.80 then 0.7 else 0.875 * reach)
                 + 0.06 * (s.rsi - 70.0) + (if s.volume >= 1.30 * s.avgVol then 0.3 else 0.0)
                 - (if TrendOf(cfg, ctx) == Bullish then 0.25 else if TrendOf(cfg, ctx) == Absent then 0.15 else 0.0);
      -0.005 <= ShortScore(cfg, s, ctx) - raw <= 0.005
  {
    ShareAtLeast(s.volume, s.avgVol, 1.30);
    var raw := 0.8 * BodyRatio(s.open, s.high, s.low, s.close)
               + 0.7 * MinReal(1.0, (Extension(s) - 1.80) / 0.80)
               + 0.6 * MinReal(1.0, (s.rsi - 70.0) / 10.0)
               + (if Ratio(s.volume, s.avgVol, 0.0) >= 1.30 then 0.3 else 0.0)
               - ShortPenalty(cfg, ctx);
    Round2IsNearest(raw);
  }

  /** The rows the two engines look at, counted from the last one. */
  lemma RowsLookedAt(df: seq<Row>, n: nat)
    requires |df| == n + 4 && n >= NR4_ROWS - 4
    ensures var x := Nr4Of(df);
      && x.highA == df[n].high && x.lowA == df[n].low && x.highB == df[n + 1].high && x.lowB == df[n + 1].low
      && x.s == df[n + 2] && x.c == df[n + 3]
      && (Nr4Usable(x) <==>
            && x.s.avgVol.Some? && x.s.emaFast.Some? && x.s.emaMid.Some? && x.s.emaTrend.Some? && x.s.rsi.Some?
            && x.c.emaFast.Some? && x.c.atr.Some? && x.c.avgVol.Some? && x.c.atrAvg.Some?
            && 0.0 < x.c.atr.value && 0.0 < x.s.avgVol.value && 0.0 < x.c.avgVol.value && 0.0 < x.atr10
            && df[n].low < df[n].high && df[n + 1].low < df[n + 1].high)
    ensures ShortUsable(df) <==>
      && df[n + 3].emaFast.Some? && Complete(df[n + 2]).Some?
      && df[n + 2].atr.value > 0.0 && df[n + 2].avgVol.value > 0.0 && df[n + 2].high > df[n + 2].low
  {
  }

  /** An overextension short enters below the whole signal candle with its stop above it, so its risk
      is positive whatever band is configured, and its score is between 1.30 and 2.40. */
  lemma ShortMeans(cfg: Config, s: Bar, c: Row, ctx: Context)
    requires s.atr > 0.0 && ShortSetup(cfg, s, c, ctx) && s.low <= s.close && s.open <= s.high
    ensures var signal := ShortSignal(c.close, ShortStop(s), 1.5, s.atr, ShortScore(cfg, s, ctx));
      && signal.price < s.low <= s.high < signal.stop
      && WellShaped(cfg, signal) && Ordered(signal)
      && 1.30 <= signal.score <= 2.40
  {
    var signal := ShortSignal(c.close, ShortStop(s), 1.5, s.atr, ShortScore(cfg, s, ctx));
    OrderedIffRisk(cfg, signal);
    ShortScoreBound(cfg, s, ctx);
  }
}
