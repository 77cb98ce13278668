/** The 4h break-of-structure engine (strategy.py, `_evaluate_bos_4h`). */
module BosEngine {
  import opened Common
  import opened Signals

  const MIN_ROWS := 36
  const RR := 2.5
  const MIN_SCORE := 1.70

  // ---- The scan for the break -------------------------------------------------------------

  /** What the scan makes of one candle: no break above the swing high, a break that fails on
      trend, volume or body, or a qualifying break. */
  datatype Break = NoBreak | TrendFails | VolumeFails | BodyFails | Qualifies

  predicate ScanReady(r: Row) {
    r.emaFast.Some? && r.emaMid.Some? && r.emaTrend.Some? && r.atr.Some? && r.avgVol.Some?
      && r.high - r.low > 0.0 && r.avgVol.value > 0.0 && r.atr.value > 0.0
  }

  /** Highest high of the rows [from, to). */
  function HighestHigh(df: seq<Row>, from: nat, to: nat): real
    requires from < to <= |df|
  {
    if to == from + 1 then df[from].high else MaxReal(HighestHigh(df, from, to - 1), df[to - 1].high)
  }

  /** The swing high looks back thirty candles and leaves out the two before the break. */
  function SwingHigh(df: seq<Row>, idx: nat): real
    requires 3 <= idx < |df|
  {
    HighestHigh(df, MaxInt(0, idx - 30), idx - 2)
  }

  function BreakAt(df: seq<Row>, idx: nat): Break
    requires 12 <= idx < |df|
  {
    var b := df[idx];
    if !ScanReady(b) || b.close <= SwingHigh(df, idx) then NoBreak
    else if !(b.emaFast.value > b.emaMid.value > b.emaTrend.value) then TrendFails
    else if b.volume / b.avgVol.value < 1.20 then VolumeFails
    else if BodyRatio(b.open, b.high, b.low, b.close) < 0.35 then BodyFails
    else Qualifies
  }

  /** A stretch's highest high is below a price exactly when every high in it is. */
  lemma {:induction false} HighestBelowIff(df: seq<Row>, from: nat, to: nat, price: real)
    requires from < to <= |df|
    ensures HighestHigh(df, from, to) < price <==> forall j :: from <= j < to ==> df[j].high < price
  {
    if to > from + 1 {
      HighestBelowIff(df, from, to - 1, price);
    }
  }

  /** A break qualifies exactly when its close is above every high from thirty to three candles back,
      on stacked EMAs, with a fifth more volume than average and a body of 35 % of the range. */
  lemma QualifiesIff(df: seq<Row>, idx: nat)
    requires 12 <= idx < |df|
    ensures BreakAt(df, idx) == Qualifies <==>
      var b := df[idx];
      && b.emaFast.Some? && b.emaMid.Some? && b.emaTrend.Some? && b.atr.Some? && b.avgVol.Some?
      && b.high > b.low && b.avgVol.value > 0.0 && b.atr.value > 0.0
      && (forall j :: 0 <= j && idx - 30 <= j < idx - 2 ==> df[j].high < b.close)
      && b.emaFast.value > b.emaMid.value > b.emaTrend.value
      && b.volume >= 1.20 * b.avgVol.value
      && (b.close - b.open >= 0.35 * (b.high - b.low) || b.open - b.close >= 0.35 * (b.high - b.low))
  {
    var b := df[idx];
    HighestBelowIff(df, MaxInt(0, idx - 30), idx - 2, b.close);
    if ScanReady(b) {
      ShareAtLeast(b.volume, b.avgVol.value, 1.20);
      RatiosMultipliedOut(b.open, b.high, b.low, b.close, b.volume, b.avgVol.value, 0.35);
    }
  }

  function VolumeOf(b: Row): real {
    if b.avgVol.Some? && b.avgVol.value > 0.0 then b.volume / b.avgVol.value else 0.0
  }

  lemma VolumeIsRatio(df: seq<Row>, idx: nat)
    requires 12 <= idx < |df| && BreakAt(df, idx) == Qualifies
    ensures VolumeOf(df[idx]) * df[idx].avgVol.value == df[idx].volume
  {
  }

  /** The candles scanned: the ten before the current one. */
  predicate Scanned(df: seq<Row>, idx: int) {
    |df| - 11 <= idx <= |df| - 2
  }

  method MaxHigh(df: seq<Row>, from: nat, to: nat) returns (high: real)
    requires from < to <= |df|
    ensures high == HighestHigh(df, from, to)
    ensures forall j :: from <= j < to ==> df[j].high <= high
    ensures exists j :: from <= j < to && df[j].high == high
  {
    high := df[from].high;
    for k := from + 1 to to
      invariant high == HighestHigh(df, from, k)
      invariant forall j :: from <= j < k ==> df[j].high <= high
      invariant exists j :: from <= j < k && df[j].high == high
    {
      if high < df[k].high {
        high := df[k].high;
      }
    }
  }

  /** The backward scan.  It stops at the latest qualifying candle; without one the flags tell
      whether some scanned break failed on trend, and on volume. */
  method ScanForBreak(df: seq<Row>) returns (found: Option<nat>, swing: real, trendFail: bool, volumeFail: bool)
    requires |df| >= MIN_ROWS
    ensures found.Some? ==>
      && Scanned(df, found.value) && BreakAt(df, found.value) == Qualifies && swing == SwingHigh(df, found.value)
      && forall j :: Scanned(df, j) && j > found.value ==> BreakAt(df, j) != Qualifies
    ensures found.None? ==> forall j :: Scanned(df, j) ==> BreakAt(df, j) != Qualifies
    ensures found.None? ==> (trendFail <==> exists j :: Scanned(df, j) && BreakAt(df, j) == TrendFails)
    ensures found.None? ==> (volumeFail <==> exists j :: Scanned(df, j) && BreakAt(df, j) == VolumeFails)
  {
    found, swing, trendFail, volumeFail := None, 0.0, false, false;
    var current := |df| - 1;
    var first := MaxInt(2, current - 10);
    var idx := current - 1;
    while idx >= first
      invariant first - 1 <= idx <= current - 1
      invariant forall j :: idx < j <= current - 1 ==> BreakAt(df, j) != Qualifies
      invariant trendFail <==> exists j :: idx < j <= current - 1 && BreakAt(df, j) == TrendFails
      invariant volumeFail <==> exists j :: idx < j <= current - 1 && BreakAt(df, j) == VolumeFails
    {
      var b := df[idx];
      var at := idx;
      idx := idx - 1;
      if !ScanReady(b) {
        continue;
      }
      var high := MaxHigh(df, MaxInt(0, at - 30), at - 2);
      if b.close <= high {
        continue;
      }
      if !(b.emaFast.value > b.emaMid.value > b.emaTrend.value) {
        assert BreakAt(df, at) == TrendFails;
        trendFail := true;
        continue;
      }
      if b.volume / b.avgVol.value < 1.20 {
        assert BreakAt(df, at) == VolumeFails;
        volumeFail := true;
        continue;
      }
      if AbsReal(b.close - b.open) / (b.high - b.low) < 0.35 {
        continue;
      }
      return Some(at), high, trendFail, volumeFail;
    }
  }

  // ---- The retest -------------------------------------------------------------------------

  function Score(c: Bar, swing: real, body: real, vol: real): real {
    Round2(
      (if body >= 0.50 then 0.6 else if body >= 0.40 then 0.35 else 0.0) +
      (if vol >= 1.28 then 0.5 else if vol >= 1.20 then 0.3 else 0.0) +
      (if AbsReal(c.low - swing) <= 0.18 * c.atr then 0.5
       else if AbsReal(c.low - swing) <= 0.30 * c.atr then 0.3 else 0.0) +
      (if 50.0 <= c.rsi <= 60.0 then 0.4 else if 48.0 <= c.rsi <= 62.0 then 0.2 else 0.0))
  }

  predicate StrongBreak(c: Bar, body: real, vol: real) {
    body >= 0.60 && vol >= 1.40 && 50.0 <= c.rsi <= 60.0
  }

  /** Everything the current candle must satisfy after a break above `swing`, in no order. */
  predicate Retest(cfg: Config, c: Bar, swing: real, body: real, vol: real, ctx: Context)
    requires c.atr > 0.0
  {
    && swing - 0.45 * c.atr <= c.low <= swing + 0.55 * c.atr
    && c.close > c.open && c.close >= swing - 0.05 * c.atr
    && c.emaFast > c.emaMid >= c.emaTrend
    && 45.0 <= c.rsi <= 63.0
    && Ratio(c.atr, c.atrAvg, 1.0) <= cfg.maxAtrRatio
    && ((c.emaFast - c.emaMid) / c.atr < 1.00 || c.rsi >= 57.0)
    && (TrendOf(cfg, ctx) == NotBullish ==> StrongBreak(c, body, vol))
    && Score(c, swing, body, vol) >= MIN_SCORE
    && RiskFits(cfg, c.close - (swing - 0.5 * c.atr), c.atr)
  }

  function SignalFor(cfg: Config, c: Bar, swing: real, body: real, vol: real, ctx: Context): Signal {
    var stop := swing - 0.5 * c.atr;
    var risk := c.close - stop;
    Signal(Buy, c.close, stop, c.close + risk * RR, risk, RR, c.atr, Score(c, swing, body, vol),
           if TrendOf(cfg, ctx) == NotBullish then NeutralBias else LongBias)
  }

  /** The gates on the current candle, one by one; the first that fails is counted. */
  method CheckRetest(cfg: Config, c: Bar, swing: real, body: real, vol: real, ctx: Context, log: RejectLog?)
    returns (signal: Option<Signal>)
    requires c.atr > 0.0
    requires log != null ==> log.Valid()
    modifies log
    ensures log != null ==> log.Valid()
    ensures signal ==
      if Retest(cfg, c, swing, body, vol, ctx) then Some(SignalFor(cfg, c, swing, body, vol, ctx)) else None
    ensures log != null && signal.Some? ==> log.bumps == old(log.bumps)
    ensures log != null && signal.None? ==> OneMore(old(log.bumps), log.bumps)
  {
    var bias := LongBias;
    if !(swing - 0.45 * c.atr <= c.low <= swing + 0.55 * c.atr) {
      BumpReject(log, "reject_bos_retest_zone");
      return None;
    }
    if c.close <= c.open || c.close < swing - 0.05 * c.atr {
      BumpReject(log, "reject_bos_retest_body");
      return None;
    }
    if !(c.emaFast > c.emaMid && c.emaMid >= c.emaTrend) {
      BumpReject(log, "reject_bos_structure");
      return None;
    }
    if !(45.0 <= c.rsi <= 63.0) {
      BumpReject(log, "reject_bos_retest_rsi");
      return None;
    }
    if Ratio(c.atr, c.atrAvg, 1.0) > cfg.maxAtrRatio {
      BumpReject(log, "reject_bos_atr_spike");
      return None;
    }
    if (c.emaFast - c.emaMid) / c.atr >= 1.00 && c.rsi < 57.0 {
      BumpReject(log, "reject_bos_spread_cold");
      return None;
    }
    if TrendOf(cfg, ctx) == NotBullish {
      if StrongBreak(c, body, vol) {
        bias := NeutralBias;
      } else {
        BumpReject(log, "reject_bos_htf");
        return None;
      }
    }
    var score := Score(c, swing, body, vol);
    if score < MIN_SCORE {
      BumpReject(log, "reject_bos_score");
      return None;
    }
    var entry := c.close;
    var stop := swing - 0.5 * c.atr;
    var risk := entry - stop;
    if risk < cfg.minRisk * c.atr || risk > cfg.maxRisk * c.atr {
      BumpReject(log, "reject_bos_risk");
      return None;
    }
    signal := Some(Signal(Buy, entry, stop, entry + risk * RR, risk, RR, c.atr, score, bias));
  }

  // ---- The engine -------------------------------------------------------------------------

  /** Too little data to judge: no signal and no reject. */
  predicate Unusable(df: seq<Row>) {
    |df| < MIN_ROWS || var c := Complete(df[|df| - 1]); c.None? || c.value.atr <= 0.0 || c.value.avgVol <= 0.0
  }

  ghost predicate LatestBreak(df: seq<Row>, k: nat)
    requires |df| >= MIN_ROWS
  {
    Scanned(df, k) && BreakAt(df, k) == Qualifies
      && forall j :: Scanned(df, j) && j > k ==> BreakAt(df, j) != Qualifies
  }

  ghost predicate SomeBreak(df: seq<Row>, kind: Break)
    requires |df| >= MIN_ROWS
  {
    exists j :: Scanned(df, j) && BreakAt(df, j) == kind
  }

  ghost predicate RetestOf(cfg: Config, df: seq<Row>, ctx: Context, k: nat)
    requires !Unusable(df) && LatestBreak(df, k)
  {
    var b := df[k];
    Retest(cfg, Complete(df[|df| - 1]).value, SwingHigh(df, k), BodyRatio(b.open, b.high, b.low, b.close),
           VolumeOf(b), ctx)
  }

  lemma OnlyOneLatest(df: seq<Row>, k: nat)
    requires |df| >= MIN_ROWS && LatestBreak(df, k)
    ensures forall m: nat :: LatestBreak(df, m) ==> m == k
  {
    forall m: nat | LatestBreak(df, m) ensures m == k {
      assert Scanned(df, m) && Scanned(df, k);
    }
  }

  /** A signal is emitted exactly when the latest qualifying break of the last ten candles is being
      retested.  Otherwise usable data is rejected exactly once; when no break qualifies, the
      label names a reason some scanned candle really had. */
  method EvaluateBos4h(df: seq<Row>, ctx: Context, cfg: Config, log: RejectLog?) returns (signal: Option<Signal>)
    requires log != null ==> log.Valid()
    modifies log
    ensures log != null ==> log.Valid()
    ensures Unusable(df) ==> signal.None? && (log != null ==> log.bumps == old(log.bumps))
    ensures !Unusable(df) && !SomeBreak(df, Qualifies) ==> signal.None?
    ensures log != null && !Unusable(df) && !SomeBreak(df, Qualifies) ==> log.bumps == old(log.bumps) + [
      if SomeBreak(df, VolumeFails) then "reject_bos_volume"
      else if SomeBreak(df, TrendFails) then "reject_bos_trend" else "reject_bos_missing"]
    ensures !Unusable(df) ==> forall k: nat :: LatestBreak(df, k) ==> (signal.Some? <==> RetestOf(cfg, df, ctx, k))
    ensures signal.Some? ==> WellShaped(cfg, signal.value) && signal.value.price == df[|df| - 1].close
    ensures signal.Some? ==> signal.value.side == Buy && signal.value.rr == RR && signal.value.score >= MIN_SCORE
    ensures signal.Some? ==> signal.value.atr > 0.0
    ensures log != null ==> log.bumps == old(log.bumps) || (signal.None? && OneMore(old(log.bumps), log.bumps))
  {
    if |df| < MIN_ROWS {
      return None;
    }
    var current := Complete(df[|df| - 1]);
    if current.None? {
      return None;
    }
    var c := current.value;
    if c.atr <= 0.0 || c.avgVol <= 0.0 {
      return None;
    }
    var found, swing, trendFail, volumeFail := ScanForBreak(df);
    if found.None? {
      BumpReject(log, if volumeFail then "reject_bos_volume"
                      else if trendFail then "reject_bos_trend" else "reject_bos_missing");
      return None;
    }
    var b := df[found.value];
    signal := CheckRetest(cfg, c, swing, BodyRatio(b.open, b.high, b.low, b.close), VolumeOf(b), ctx, log);
    OnlyOneLatest(df, found.value);
  }

  /** The gates of a retest without its score, ratios multiplied out. */
  lemma RetestIff(cfg: Config, c: Bar, swing: real, body: real, vol: real, ctx: Context)
    requires c.atr > 0.0
    ensures Retest(cfg, c, swing, body, vol, ctx) <==>
      && -0.45 * c.atr <= c.low - swing <= 0.55 * c.atr
      && c.close > c.open && swing - c.close <= 0.05 * c.atr
      && c.emaTrend <= c.emaMid < c.emaFast
      && 45.0 <= c.rsi <= 63.0
      && (if c.atrAvg > 0.0 then c.atr <= cfg.maxAtrRatio * c.atrAvg else 1.0 <= cfg.maxAtrRatio)
      && (c.rsi >= 57.0 || c.emaFast - c.emaMid < c.atr)
      && ((body >= 0.60 && vol >= 1.40 && 50.0 <= c.rsi <= 60.0)
          || !(ctx.rows > 0 && ctx.rows >= cfg.emaMid && ctx.rows >= cfg.emaTrend && ctx.emaMid.Some?
               && ctx.emaTrend.Some? && !(ctx.emaTrend.value < ctx.emaMid.value < ctx.price)))
      && Score(c, swing, body, vol) >= 1.70
      && cfg.minRisk * c.atr <= c.close - swing + 0.5 * c.atr <= cfg.maxRisk * c.atr
  {
    SpikeMultipliedOut(c.atr, c.atrAvg, cfg.maxAtrRatio);
    ShareAtLeast(c.emaFast - c.emaMid, c.atr, 1.00);
    TrendSpeaksIff(cfg, ctx);
  }

  /** The four things a retest is scored for, at their best and at their second best. */
  predicate BestParts(c: Bar, swing: real, body: real, vol: real, part: nat) {
    match part
    case 0 => body >= 0.50
    case 1 => vol >= 1.28
    case 2 => -0.18 * c.atr <= c.low - swing <= 0.18 * c.atr
    case _ => 50.0 <= c.rsi <= 60.0
  }

  predicate GoodParts(c: Bar, swing: real, body: real, vol: real, part: nat) {
    match part
    case 0 => body >= 0.40
    case 1 => vol >= 1.20
    case 2 => -0.30 * c.atr <= c.low - swing <= 0.30 * c.atr
    case _ => 48.0 <= c.rsi <= 62.0
  }

  /** The score is enough exactly when all four are at least second best and at most one is not at its
      best: every step down costs at least 0.20, and only 0.30 may be missing from the full 2.00. */
  lemma ScorePassesIff(c: Bar, swing: real, body: real, vol: real)
    requires c.atr > 0.0
    ensures Score(c, swing, body, vol) >= MIN_SCORE <==>
      exists slack: nat :: slack < 4 && GoodParts(c, swing, body, vol, slack)
        && forall part: nat :: part < 4 && part != slack ==> BestParts(c, swing, body, vol, part)
  {
    var cents :=
      (if body >= 0.50 then 60 else if body >= 0.40 then 35 else 0) +
      (if vol >= 1.28 then 50 else if vol >= 1.20 then 30 else 0) +
      (if AbsReal(c.low - swing) <= 0.18 * c.atr then 50
       else if AbsReal(c.low - swing) <= 0.30 * c.atr then 30 else 0) +
      (if 50.0 <= c.rsi <= 60.0 then 40 else if 48.0 <= c.rsi <= 62.0 then 20 else 0);
    Round2OfCents(cents);
    assert Score(c, swing, body, vol) == cents as real / 100.0;
    var b0, b1, b2, b3 := BestParts(c, swing, body, vol, 0), BestParts(c, swing, body, vol, 1),
                          BestParts(c, swing, body, vol, 2), BestParts(c, swing, body, vol, 3);
    var g0, g1, g2, g3 := GoodParts(c, swing, body, vol, 0), GoodParts(c, swing, body, vol, 1),
                          GoodParts(c, swing, body, vol, 2), GoodParts(c, swing, body, vol, 3);
    assert Score(c, swing, body, vol) >= MIN_SCORE <==>
      (b1 && b2 && b3 && g0) || (b0 && b2 && b3 && g1) || (b0 && b1 && b3 && g2) || (b0 && b1 && b2 && g3);
  }

  /** A retest enters close above the broken swing high and stops half an ATR below it, so its risk is
      positive whatever band is configured. */
  lemma RetestMeans(cfg: Config, c: Bar, swing: real, body: real, vol: real, ctx: Context)
    requires c.atr > 0.0 && Retest(cfg, c, swing, body, vol, ctx)
    ensures var signal := SignalFor(cfg, c, swing, body, vol, ctx);
      && signal.stop < swing && swing - 0.05 * c.atr <= signal.price
      && WellShaped(cfg, signal) && Ordered(signal) && signal.score >= MIN_SCORE
      && (signal.bias == if TrendOf(cfg, ctx) in {Absent, Unclear, Bullish} then LongBias else NeutralBias)
  {
    OrderedIffRisk(cfg, SignalFor(cfg, c, swing, body, vol, ctx));
  }
}
