/** The EMA-pullback engine and the dispatch over all four engines (strategy.py,
    `evaluate_signal`). */
module PullbackEngine {
  import opened Common
  import opened Signals
  import BosEngine
  import OtherEngines

  datatype Interval = M15 | M15Short | H1 | H4 | D1 | OtherInterval

  /** The parameters of an interval. */
  datatype Profile = Profile(rsiMin: real, rsiMax: real, bodyMin: real, tolerance: real, rr: real, stopBuf: real,
                             minScore: real, spreadMax: real, volumeMin: real)

  /** Per-interval tightening is off when the RSI range is fully open. */
  predicate Strict(cfg: Config) {
    !(cfg.rsiMin == 0.0 && cfg.rsiMax == 100.0)
  }

  function ProfileOf(cfg: Config, iv: Interval): Profile {
    if Strict(cfg) && iv == M15 then Profile(48.0, 57.0, 0.42, 2.05, 1.5, 0.40, 1.30, 2.60, 0.95)
    else if Strict(cfg) && iv == H1 then Profile(50.0, 56.5, 0.42, 1.35, 2.00, 0.30, 1.55, 1.75, 0.98)
    else Profile(cfg.rsiMin, cfg.rsiMax, cfg.minBody, cfg.pullbackTol, cfg.rr, 0.1, cfg.minScore, cfg.maxSpread,
                 cfg.volumeMin)
  }

  /** Signal candle, confirmation candle and the fast EMA of the candle before, all usable. */
  datatype Setup = Setup(s: Bar, c: Row, prevEma: real)

  /** The average ATR is the one column that may be missing: it is then read as zero. */
  function SetupOf(df: seq<Row>): Option<Setup>
    requires |df| >= 3
  {
    var row := df[|df| - 2];
    var full := Complete(row.(atrAvg := if row.atrAvg.Some? then row.atrAvg else Some(0.0)));
    if full.Some? && df[|df| - 3].emaFast.Some?
       && full.value.atr > 0.0 && full.value.avgVol > 0.0 && full.value.high - full.value.low > 0.0
    then Some(Setup(full.value, df[|df| - 1], df[|df| - 3].emaFast.value))
    else None
  }

  predicate Usable(x: Setup) {
    x.s.atr > 0.0 && x.s.avgVol > 0.0 && x.s.high - x.s.low > 0.0
  }

  function Body(s: Bar): real {
    BodyRatio(s.open, s.high, s.low, s.close)
  }

  function Volume(s: Bar): real {
    Ratio(s.volume, s.avgVol, 0.0)
  }

  function Spread(s: Bar): real
    requires s.atr > 0.0
  {
    (s.emaFast - s.emaMid) / s.atr
  }

  // ---- The gates, as one condition each ---------------------------------------------------

  predicate TrendGate(cfg: Config, iv: Interval, s: Bar) {
    s.emaFast > s.emaMid &&
    if Strict(cfg) && iv == M15 then s.emaFast >= s.emaTrend - 1.10 * s.atr else s.emaMid > s.emaTrend
  }

  predicate SpreadGate(cfg: Config, iv: Interval, p: Profile, s: Bar)
    requires s.atr > 0.0
  {
    && cfg.minSpread <= Spread(s) <= p.spreadMax
    && !(Strict(cfg) && iv != H1 && 0.35 <= Spread(s) < 0.50)
  }

  predicate PullbackGate(p: Profile, s: Bar) {
    && s.emaFast - p.tolerance * s.atr <= s.low <= s.emaFast + p.tolerance * s.atr
    && s.close > s.emaMid
  }

  predicate MomentumGate(p: Profile, s: Bar) {
    && p.rsiMin <= s.rsi <= p.rsiMax
    && Body(s) >= p.bodyMin && s.close > s.open && s.close > s.low + (2.0 / 3.0) * (s.high - s.low)
    && Volume(s) >= p.volumeMin
  }

  function RsiMid(p: Profile): real {
    p.rsiMin + 0.5 * (p.rsiMax - p.rsiMin)
  }

  /** Late entry: RSI in its top decile and the close far from the fast EMA. */
  predicate LateEntry(p: Profile, s: Bar) {
    s.rsi >= p.rsiMax - 0.10 * MaxReal(0.000000001, p.rsiMax - p.rsiMin)
      && s.close > s.emaFast && s.close - s.emaFast > 1.2 * s.atr
  }

  predicate ExtensionGate(cfg: Config, iv: Interval, p: Profile, s: Bar)
    requires s.atr > 0.0
  {
    Strict(cfg) ==>
      match iv
      case M15 => !(Volume(s) > 3.6 && s.rsi >= RsiMid(p) + 1.0) && s.high - s.emaFast <= 2.20 * s.atr && s.rsi <= 57.0
      case H1 => s.rsi <= 57.5 && s.close <= s.emaFast + 1.35 * s.atr && !(Spread(s) >= 0.80 && s.rsi < 53.0)
                 && !LateEntry(p, s)
      case _ => !LateEntry(p, s)
  }

  /** What strict 15m takes off the score instead of rejecting. */
  function ExtensionPenalty(cfg: Config, iv: Interval, p: Profile, s: Bar): real {
    var chase := if Volume(s) > 2.6 && s.rsi >= RsiMid(p) then 0.08 else 0.0;
    var warm := if s.high - s.emaFast > 1.65 * s.atr || s.rsi > 55.5 then 0.14 else 0.0;
    var late := if LateEntry(p, s) then 0.12 else 0.0;
    if Strict(cfg) && iv == M15 then chase + warm + late else 0.0
  }

  function ConfirmBody(c: Row): real {
    BodyRatio(c.open, c.high, c.low, c.close)
  }

  predicate ConfirmGate(cfg: Config, iv: Interval, s: Bar, c: Row) {
    if Strict(cfg) && iv == M15 then
      c.close >= s.close * 0.991 && c.close > c.open && ConfirmBody(c) >= 0.20
      && c.close <= s.high + 0.60 * s.atr && c.low <= s.emaFast + 0.85 * s.atr
    else if Strict(cfg) && iv == H1 then
      c.close >= s.close * 0.998 && c.close > c.open && ConfirmBody(c) >= 0.20
      && c.close <= s.high + 0.50 * s.atr && c.low <= s.emaFast + 0.60 * s.atr
    else c.close > s.high
  }

  predicate ContextGate(cfg: Config, iv: Interval, s: Bar, ctx: Context) {
    TrendOf(cfg, ctx) == NotBullish ==>
      iv == M15 && Body(s) >= 0.55 && Volume(s) >= 1.30 && 48.0 <= s.rsi <= 56.0
  }

  function ContextPenalty(cfg: Config, iv: Interval, ctx: Context): real {
    match TrendOf(cfg, ctx)
    case Absent => if iv == H1 || iv == D1 then 0.0 else cfg.missingPenalty
    case Unclear => if iv == H1 then 0.0 else cfg.missingPenalty
    case Bullish => 0.0
    case NotBullish => 0.20
  }

  function Score(cfg: Config, iv: Interval, p: Profile, s: Bar, c: Row, ctx: Context): real
    requires s.atr > 0.0
  {
    var spreadNorm := MinReal(1.0, (Spread(s) - cfg.minSpread) * 2.0);
    var context, extension := ContextPenalty(cfg, iv, ctx), ExtensionPenalty(cfg, iv, p, s);
    if Strict(cfg) && iv == M15 then
      Round2(1.0 - MinReal(1.2, AbsReal(s.close - s.emaFast) / s.atr) + Body(s)
             + (if p.rsiMin + 3.0 < s.rsi < p.rsiMax - 3.0 then 0.7 else 0.0) - context - extension)
    else if Strict(cfg) && iv == H1 then
      Round2(Body(s) + 0.80 * spreadNorm + 0.60 * MinReal(1.0, ConfirmBody(c) / 0.32)
             + (if 50.0 <= s.rsi <= 55.5 then 0.45 else 0.2) - context)
    else
      Round2(MinReal(2.0, ((Body(s) - p.bodyMin) / MaxReal(0.000000001, 1.0 - p.bodyMin)) * 2.0)
             + (if p.rsiMin + 5.0 < s.rsi < p.rsiMax - 5.0 then 1.0 else 0.0) + spreadNorm - context - extension)
  }

  function Stop(p: Profile, s: Bar): real {
    s.low - p.stopBuf * s.atr
  }

  /** Every gate at once. */
  predicate Pullback(cfg: Config, iv: Interval, x: Setup, ctx: Context)
    requires Usable(x)
  {
    var p := ProfileOf(cfg, iv);
    && TrendGate(cfg, iv, x.s) && SpreadGate(cfg, iv, p, x.s) && PullbackGate(p, x.s) && x.prevEma > 0.0
    && MomentumGate(p, x.s) && ExtensionGate(cfg, iv, p, x.s)
    && ConfirmGate(cfg, iv, x.s, x.c) && ContextGate(cfg, iv, x.s, ctx)
    && RiskFits(cfg, x.c.close - Stop(p, x.s), x.s.atr)
    && Score(cfg, iv, p, x.s, x.c, ctx) >= p.minScore
    && Ratio(x.s.atr, x.s.atrAvg, 1.0) <= cfg.maxAtrRatio
  }

  // ---- The engine, gate by gate -----------------------------------------------------------

  method CheckPullback(cfg: Config, iv: Interval, p: Profile, x: Setup, log: RejectLog?) returns (passed: bool)
    requires Usable(x) && p == ProfileOf(cfg, iv)
    requires log != null ==> log.Valid()
    modifies log
    ensures log != null ==> log.Valid()
    ensures passed <==>
      && TrendGate(cfg, iv, x.s) && SpreadGate(cfg, iv, p, x.s) && PullbackGate(p, x.s) && x.prevEma > 0.0
      && MomentumGate(p, x.s)
    ensures log != null ==> log.bumps == old(log.bumps) || (!passed && OneMore(old(log.bumps), log.bumps))
  {
    var s := x.s;
    var trendOk := s.emaFast > s.emaMid && s.emaMid > s.emaTrend;
    if Strict(cfg) && iv == M15 {
      trendOk := s.emaFast > s.emaMid && s.emaFast >= s.emaTrend - 1.10 * s.atr;
    }
    if !trendOk {
      BumpReject(log, "reject_trend");
      return false;
    }
    if Spread(s) < cfg.minSpread {
      BumpReject(log, "reject_spread_min");
      return false;
    }
    if Spread(s) > p.spreadMax {
      BumpReject(log, "reject_spread_max");
      return false;
    }
    if Strict(cfg) && 0.35 <= Spread(s) < 0.50 {
      if iv != H1 {
        BumpReject(log, "reject_spread_dead_zone");
        return false;
      }
    }
    var tolerance := p.tolerance * s.atr;
    if !(s.low <= s.emaFast + tolerance && s.low >= s.emaFast - tolerance) {
      BumpReject(log, "reject_pullback");
      return false;
    }
    if s.close <= s.emaMid {
      BumpReject(log, "reject_structure");
      return false;
    }
    if x.prevEma <= 0.0 {
      return false;
    }
    if !(p.rsiMin <= s.rsi <= p.rsiMax) {
      BumpReject(log, "reject_rsi");
      return false;
    }
    if !(Body(s) >= p.bodyMin && s.close > s.open && s.close > s.low + (2.0 / 3.0) * (s.high - s.low)) {
      BumpReject(log, "reject_body");
      return false;
    }
    if Volume(s) < p.volumeMin {
      BumpReject(log, "reject_volume");
      return false;
    }
    passed := true;
  }

  method CheckExtension(cfg: Config, iv: Interval, p: Profile, s: Bar, log: RejectLog?)
    returns (passed: bool, penalty: real)
    requires s.atr > 0.0
    requires log != null ==> log.Valid()
    modifies log
    ensures log != null ==> log.Valid()
    ensures passed <==> ExtensionGate(cfg, iv, p, s)
    ensures passed ==> penalty == ExtensionPenalty(cfg, iv, p, s)
    ensures log != null ==> log.bumps == old(log.bumps) || (!passed && OneMore(old(log.bumps), log.bumps))
  {
    penalty := 0.0;
    if !Strict(cfg) {
      return true, penalty;
    }
    if iv == M15 {
      if Volume(s) > 3.6 && s.rsi >= RsiMid(p) + 1.0 {
        BumpReject(log, "reject_volume_extreme");
        return false, penalty;
      }
      if Volume(s) > 2.6 && s.rsi >= RsiMid(p) {
        penalty := penalty + 0.08;
      }
      if s.high - s.emaFast > 2.20 * s.atr || s.rsi > 57.0 {
        BumpReject(log, "reject_extension");
        return false, penalty;
      }
      if s.high - s.emaFast > 1.65 * s.atr || s.rsi > 55.5 {
        penalty := penalty + 0.14;
      }
    } else if iv == H1 {
      if s.rsi > 57.5 || s.close > s.emaFast + 1.35 * s.atr {
        BumpReject(log, "reject_extension");
        return false, penalty;
      }
      if Spread(s) >= 0.80 && s.rsi < 53.0 {
        BumpReject(log, "reject_spread_cold_1h");
        return false, penalty;
      }
    }
    if LateEntry(p, s) {
      if iv == M15 {
        penalty := penalty + 0.12;
      } else {
        BumpReject(log, "reject_extension");
        return false, penalty;
      }
    }
    passed := true;
  }

  method CheckConfirmation(cfg: Config, iv: Interval, x: Setup, ctx: Context, log: RejectLog?)
    returns (passed: bool, bias: Bias, penalty: real)
    requires Usable(x)
    requires log != null ==> log.Valid()
    modifies log
    ensures log != null ==> log.Valid()
    ensures passed <==> ConfirmGate(cfg, iv, x.s, x.c) && ContextGate(cfg, iv, x.s, ctx)
    ensures passed ==> penalty == ContextPenalty(cfg, iv, ctx)
    ensures passed ==> bias == if TrendOf(cfg, ctx) == Bullish then LongBias else NeutralBias
    ensures log != null ==> log.bumps == old(log.bumps) || (!passed && OneMore(old(log.bumps), log.bumps))
  {
    passed, bias, penalty := false, NeutralBias, 0.0;
    var s, c := x.s, x.c;
    var range, body := c.high - c.low, AbsReal(c.close - c.open);
    if Strict(cfg) && iv == M15 {
      var ratio := if range > 0.0 then body / range else 0.0;
      if !(c.close >= s.close * 0.991 && c.close > c.open && ratio >= 0.20
           && c.close <= s.high + 0.60 * s.atr && c.low <= s.emaFast + 0.85 * s.atr) {
        BumpReject(log, "reject_confirmation");
        return;
      }
    } else if Strict(cfg) && iv == H1 {
      var ratio := if range > 0.0 then body / range else 0.0;
      if !(c.close >= s.close * 0.998 && c.close > c.open && ratio >= 0.20
           && c.close <= s.high + 0.50 * s.atr && c.low <= s.emaFast + 0.60 * s.atr) {
        BumpReject(log, "reject_confirmation");
        return;
      }
    } else if x.c.close <= x.s.high {
      return;
    }
    match TrendOf(cfg, ctx) {
      case Absent =>
        if iv == H1 { penalty := 0.0; } else if iv != D1 { penalty := cfg.missingPenalty; }
      case Unclear =>
        penalty := if iv == H1 then 0.0 else cfg.missingPenalty;
      case Bullish =>
        bias := LongBias;
      case NotBullish =>
        if iv == M15 && Body(x.s) >= 0.55 && Volume(x.s) >= 1.30 && 48.0 <= x.s.rsi <= 56.0 {
          penalty := penalty + 0.20;
        } else {
          BumpReject(log, "reject_htf");
          return;
        }
    }
    passed := true;
  }

  method CheckRiskAndScore(cfg: Config, iv: Interval, p: Profile, x: Setup, ctx: Context, bias: Bias, log: RejectLog?)
    returns (signal: Option<Signal>)
    requires Usable(x)
    requires log != null ==> log.Valid()
    modifies log
    ensures log != null ==> log.Valid()
    ensures signal.Some? <==>
      && RiskFits(cfg, x.c.close - Stop(p, x.s), x.s.atr)
      && Score(cfg, iv, p, x.s, x.c, ctx) >= p.minScore
      && Ratio(x.s.atr, x.s.atrAvg, 1.0) <= cfg.maxAtrRatio
    ensures signal.Some? ==> WellShaped(cfg, signal.value) && signal.value.side == Buy && signal.value.bias == bias
    ensures signal.Some? ==> signal.value.atr == x.s.atr && signal.value.score >= p.minScore
    ensures signal.Some? ==>
      signal.value.price == x.c.close && signal.value.stop == Stop(p, x.s) && signal.value.rr == p.rr
    ensures log != null ==> log.bumps == old(log.bumps) || (signal.None? && OneMore(old(log.bumps), log.bumps))
  {
    var s := x.s;
    var entry, stop := x.c.close, Stop(p, s);
    var risk := entry - stop;
    if risk < cfg.minRisk * s.atr || risk > cfg.maxRisk * s.atr {
      BumpReject(log, "reject_risk");
      return None;
    }
    var score := Score(cfg, iv, p, s, x.c, ctx);
    if score < p.minScore {
      BumpReject(log, "reject_score");
      return None;
    }
    if Ratio(s.atr, s.atrAvg, 1.0) > cfg.maxAtrRatio {
      BumpReject(log, "reject_atr_spike");
      return None;
    }
    signal := Some(Signal(Buy, entry, stop, entry + risk * p.rr, risk, p.rr, s.atr, score, bias));
  }

  method EvaluatePullback(df: seq<Row>, ctx: Context, cfg: Config, iv: Interval, log: RejectLog?)
    returns (signal: Option<Signal>)
    requires |df| >= 3
    requires log != null ==> log.Valid()
    modifies log
    ensures log != null ==> log.Valid()
    ensures signal.Some? <==> SetupOf(df).Some? && Pullback(cfg, iv, SetupOf(df).value, ctx)
    ensures signal.Some? ==> WellShaped(cfg, signal.value) && signal.value.side == Buy && signal.value.atr > 0.0
    ensures signal.Some? ==> signal.value.score >= ProfileOf(cfg, iv).minScore
    ensures signal.Some? ==> var x, p := SetupOf(df).value, ProfileOf(cfg, iv);
      signal.value.price == x.c.close && signal.value.stop == Stop(p, x.s) && signal.value.rr == p.rr
    ensures log != null ==> log.bumps == old(log.bumps) || (signal.None? && OneMore(old(log.bumps), log.bumps))
  {
    var setup := SetupOf(df);
    if setup.None? {
      return None;
    }
    var x, p := setup.value, ProfileOf(cfg, iv);
    var s := x.s;
    var passed := CheckPullback(cfg, iv, p, x, log);
    if !passed {
      return None;
    }
    var extension, context, bias;
    passed, extension := CheckExtension(cfg, iv, p, s, log);
    if !passed {
      return None;
    }
    passed, bias, context := CheckConfirmation(cfg, iv, x, ctx, log);
    if !passed {
      return None;
    }
    signal := CheckRiskAndScore(cfg, iv, p, x, ctx, bias, log);
  }

  /** A pullback entry buys an up-trend that has come back: the fast EMA is above the middle one, the
      signal candle's low is within the tolerance of the fast EMA and its close still above the
      middle one; the stop is below that low, and outside the two strict intervals with their own
      confirmation the price is above the whole candle, so that the risk is positive whatever band
      is configured. */
  lemma PullbackMeans(cfg: Config, iv: Interval, x: Setup, ctx: Context)
    requires Usable(x) && Pullback(cfg, iv, x, ctx) && cfg.rr > 0.0
    ensures var p := ProfileOf(cfg, iv);
      && x.s.emaFast > x.s.emaMid && AbsReal(x.s.low - x.s.emaFast) <= p.tolerance * x.s.atr && x.s.close > x.s.emaMid
      && Stop(p, x.s) < x.s.low && p.rr > 0.0
      && p.rr == (if !Strict(cfg) || iv !in {M15, H1} then cfg.rr else if iv == M15 then 1.5 else 2.0)
      && (!(Strict(cfg) && (iv == M15 || iv == H1)) ==> Stop(p, x.s) < x.s.low < x.s.high < x.c.close)
      && Score(cfg, iv, p, x.s, x.c, ctx) >= p.minScore
  {
    var p := ProfileOf(cfg, iv);
    PositiveProduct(p.stopBuf, x.s.atr);
  }

  /** The candle's shape and volume without a division: inside the RSI band, rising, its body at least
      the configured share of the range, closed in the upper third, on enough volume, */
  lemma MomentumIff(p: Profile, s: Bar)
    requires s.avgVol > 0.0 && s.high > s.low
    ensures MomentumGate(p, s) <==>
      && p.rsiMin <= s.rsi <= p.rsiMax
      && s.close > s.open && s.close - s.open >= p.bodyMin * (s.high - s.low)
      && 3.0 * (s.close - s.low) > 2.0 * (s.high - s.low)
      && s.volume >= p.volumeMin * s.avgVol
  {
    ShareAtLeast(AbsReal(s.close - s.open), s.high - s.low, p.bodyMin);
    ShareAtLeast(s.volume, s.avgVol, p.volumeMin);
  }

  /** and its EMAs apart by the configured part of an ATR, outside the dead zone. */
  lemma SpreadIff(cfg: Config, iv: Interval, p: Profile, s: Bar)
    requires s.atr > 0.0
    ensures SpreadGate(cfg, iv, p, s) <==>
      var gap := s.emaFast - s.emaMid;
      && cfg.minSpread * s.atr <= gap <= p.spreadMax * s.atr
      && !(Strict(cfg) && iv != H1 && 0.35 * s.atr <= gap < 0.50 * s.atr)
  {
    var gap := s.emaFast - s.emaMid;
    ShareAtLeast(gap, s.atr, cfg.minSpread);
    ShareAtLeast(gap, s.atr, 0.35);
    ShareAtLeast(gap, s.atr, 0.50);
    ShareAtMost(gap, s.atr, p.spreadMax);
  }

  /** Whether the engine has what it needs, and which rows it reads: the signal candle before the last
      row, the last row as its confirmation, and the fast EMA of the row before both. */
  lemma SetupIff(df: seq<Row>, n: nat)
    requires |df| == n + 3
    ensures var s := df[n + 1];
      && (SetupOf(df).Some? <==>
            && df[n].emaFast.Some? && s.emaFast.Some? && s.emaMid.Some? && s.emaTrend.Some? && s.rsi.Some?
            && s.atr.Some? && s.avgVol.Some? && s.atr.value > 0.0 && s.avgVol.value > 0.0 && s.high > s.low)
      && (SetupOf(df).Some? ==>
            var x := SetupOf(df).value;
            && x.c == df[n + 2] && x.prevEma == df[n].emaFast.value && Usable(x)
            && Complete(s.(atrAvg := Some(if s.atrAvg.Some? then s.atrAvg.value else 0.0))) == Some(x.s))
  {
  }

  lemma RisingBody(c: Row, x: real)
    requires c.close > c.open && x > 0.0
    ensures ConfirmBody(c) >= x <==> c.high > c.low && c.close - c.open >= x * (c.high - c.low)
  {
    if c.high > c.low {
      ShareAtLeast(c.close - c.open, c.high - c.low, x);
    }
  }

  lemma ContextIff(cfg: Config, iv: Interval, s: Bar, ctx: Context)
    requires s.avgVol > 0.0 && s.high > s.low && s.close > s.open
    ensures ContextGate(cfg, iv, s, ctx) <==>
      || TrendOf(cfg, ctx) != NotBullish
      || (&& iv == M15 && s.close - s.open >= 0.55 * (s.high - s.low)
          && s.volume >= 1.30 * s.avgVol && 48.0 <= s.rsi <= 56.0)
  {
    ShareAtLeast(s.close - s.open, s.high - s.low, 0.55);
    ShareAtLeast(s.volume, s.avgVol, 1.30);
  }

  lemma VolumeAbove(s: Bar, x: real)
    requires s.avgVol > 0.0
    ensures Volume(s) > x <==> s.volume > x * s.avgVol
  {
    ShareAtMost(s.volume, s.avgVol, x);
  }

  /** The strict 15m signal candle, with every number written out, */
  predicate Signal15m(cfg: Config, s: Bar) {
    var gap := s.emaFast - s.emaMid;
    && s.emaFast > s.emaMid && s.emaTrend - s.emaFast <= 1.10 * s.atr
    && cfg.minSpread * s.atr <= gap <= 2.60 * s.atr && !(0.35 * s.atr <= gap < 0.50 * s.atr)
    && -2.05 * s.atr <= s.low - s.emaFast <= 2.05 * s.atr && s.close > s.emaMid
    && 48.0 <= s.rsi <= 57.0 && s.close > s.open && s.close - s.open >= 0.42 * (s.high - s.low)
    && 3.0 * (s.close - s.low) > 2.0 * (s.high - s.low)
    && s.volume >= 0.95 * s.avgVol && (s.volume <= 3.6 * s.avgVol || s.rsi < 53.5)
    && s.high - s.emaFast <= 2.20 * s.atr
  }

  /** and its confirmation, which must stay near, rise and leave a risk inside the band. */
  predicate Confirm15m(cfg: Config, s: Bar, c: Row) {
    && c.close >= 0.991 * s.close && c.high > c.low && c.close > c.open && c.close - c.open >= 0.20 * (c.high - c.low)
    && c.close - s.high <= 0.60 * s.atr && c.low - s.emaFast <= 0.85 * s.atr
    && cfg.minRisk * s.atr <= c.close - s.low + 0.40 * s.atr <= cfg.maxRisk * s.atr
  }

  /** The same for strict 1h, */
  predicate Signal1h(cfg: Config, s: Bar) {
    var gap := s.emaFast - s.emaMid;
    && s.emaFast > s.emaMid > s.emaTrend && cfg.minSpread * s.atr <= gap <= 1.75 * s.atr
    && -1.35 * s.atr <= s.low - s.emaFast <= 1.35 * s.atr && s.close > s.emaMid
    && 50.0 <= s.rsi <= 56.5 && s.close > s.open && s.close - s.open >= 0.42 * (s.high - s.low)
    && 3.0 * (s.close - s.low) > 2.0 * (s.high - s.low) && s.volume >= 0.98 * s.avgVol
    && (gap < 0.80 * s.atr || s.rsi >= 53.0)
    && s.close - s.emaFast <= 1.35 * s.atr
    && (s.rsi < 55.85 || s.close <= s.emaFast || s.close - s.emaFast <= 1.2 * s.atr)
  }

  predicate Confirm1h(cfg: Config, s: Bar, c: Row) {
    && c.close >= 0.998 * s.close && c.high > c.low && c.close > c.open && c.close - c.open >= 0.20 * (c.high - c.low)
    && c.close - s.high <= 0.50 * s.atr && c.low - s.emaFast <= 0.60 * s.atr
    && cfg.minRisk * s.atr <= c.close - s.low + 0.30 * s.atr <= cfg.maxRisk * s.atr
  }

  /** and for every other entry, with the configured numbers. */
  predicate SignalElse(cfg: Config, strict: bool, s: Bar) {
    var gap, wide := s.emaFast - s.emaMid, cfg.pullbackTol * s.atr;
    && s.emaFast > s.emaMid > s.emaTrend && cfg.minSpread * s.atr <= gap <= cfg.maxSpread * s.atr
    && !(strict && 0.35 * s.atr <= gap < 0.50 * s.atr)
    && s.emaFast - wide <= s.low <= s.emaFast + wide && s.close > s.emaMid
    && cfg.rsiMin <= s.rsi <= cfg.rsiMax && s.close > s.open && s.close - s.open >= cfg.minBody * (s.high - s.low)
    && 3.0 * (s.close - s.low) > 2.0 * (s.high - s.low) && s.volume >= cfg.volumeMin * s.avgVol
    && !(strict && s.close - s.emaFast > 1.2 * s.atr && s.close > s.emaFast
         && s.rsi >= cfg.rsiMax - 0.10 * MaxReal(0.000000001, cfg.rsiMax - cfg.rsiMin))
  }

  predicate ConfirmElse(cfg: Config, s: Bar, c: Row) {
    && c.close > s.high
    && cfg.minRisk * s.atr <= c.close - s.low + 0.1 * s.atr <= cfg.maxRisk * s.atr
  }

  predicate SignalLooksRight(cfg: Config, strict: bool, iv: Interval, s: Bar) {
    if strict && iv == M15 then Signal15m(cfg, s)
    else if strict && iv == H1 then Signal1h(cfg, s) else SignalElse(cfg, strict, s)
  }

  predicate ConfirmLooksRight(cfg: Config, strict: bool, iv: Interval, s: Bar, c: Row) {
    if strict && iv == M15 then Confirm15m(cfg, s, c)
    else if strict && iv == H1 then Confirm1h(cfg, s, c) else ConfirmElse(cfg, s, c)
  }

  /** What the gates ask of the signal candle alone. */
  predicate SignalGates(cfg: Config, iv: Interval, s: Bar)
    requires s.atr > 0.0
  {
    var p := ProfileOf(cfg, iv);
    && TrendGate(cfg, iv, s) && SpreadGate(cfg, iv, p, s) && PullbackGate(p, s)
    && MomentumGate(p, s) && ExtensionGate(cfg, iv, p, s)
  }

  lemma Signal15mIff(cfg: Config, s: Bar)
    requires s.atr > 0.0 && s.avgVol > 0.0 && s.high > s.low && Strict(cfg)
    ensures SignalGates(cfg, M15, s) <==> Signal15m(cfg, s)
  {
    var p := ProfileOf(cfg, M15);
    SpreadIff(cfg, M15, p, s);
    MomentumIff(p, s);
    VolumeAbove(s, 3.6);
  }

  lemma Signal1hIff(cfg: Config, s: Bar)
    requires s.atr > 0.0 && s.avgVol > 0.0 && s.high > s.low && Strict(cfg)
    ensures SignalGates(cfg, H1, s) <==> Signal1h(cfg, s)
  {
    var p := ProfileOf(cfg, H1);
    SpreadIff(cfg, H1, p, s);
    MomentumIff(p, s);
    ShareAtLeast(s.emaFast - s.emaMid, s.atr, 0.80);
  }

  lemma SignalElseIff(cfg: Config, iv: Interval, s: Bar)
    requires s.atr > 0.0 && s.avgVol > 0.0 && s.high > s.low && !(Strict(cfg) && (iv == M15 || iv == H1))
    ensures SignalGates(cfg, iv, s) <==> SignalElse(cfg, Strict(cfg), s)
  {
    var p := ProfileOf(cfg, iv);
    SpreadIff(cfg, iv, p, s);
    MomentumIff(p, s);
  }

  lemma SignalIff(cfg: Config, iv: Interval, s: Bar)
    requires s.atr > 0.0 && s.avgVol > 0.0 && s.high > s.low
    ensures SignalGates(cfg, iv, s) <==> SignalLooksRight(cfg, cfg.rsiMin != 0.0 || cfg.rsiMax != 100.0, iv, s)
  {
    if Strict(cfg) && iv == M15 {
      Signal15mIff(cfg, s);
    } else if Strict(cfg) && iv == H1 {
      Signal1hIff(cfg, s);
    } else {
      SignalElseIff(cfg, iv, s);
    }
  }

  predicate ConfirmGates(cfg: Config, iv: Interval, s: Bar, c: Row) {
    ConfirmGate(cfg, iv, s, c) && RiskFits(cfg, c.close - Stop(ProfileOf(cfg, iv), s), s.atr)
  }

  lemma ConfirmIff(cfg: Config, iv: Interval, s: Bar, c: Row)
    ensures ConfirmGates(cfg, iv, s, c) <==>
      ConfirmLooksRight(cfg, cfg.rsiMin != 0.0 || cfg.rsiMax != 100.0, iv, s, c)
  {
    if c.close > c.open {
      RisingBody(c, 0.20);
    }
  }

  predicate ScoreIsEnough(cfg: Config, iv: Interval, score: real) {
    var strict := cfg.rsiMin != 0.0 || cfg.rsiMax != 100.0;
    score >= if strict && iv == M15 then 1.30 else if strict && iv == H1 then 1.55 else cfg.minScore
  }

  /** An entry, interval by interval: its signal candle and its confirmation are as written out, the
      context does not speak against it, and score and ATR are within their limits. */
  lemma PullbackIff(cfg: Config, iv: Interval, x: Setup, ctx: Context)
    requires Usable(x)
    ensures Pullback(cfg, iv, x, ctx) <==>
      && SignalGates(cfg, iv, x.s) && ConfirmGates(cfg, iv, x.s, x.c)
      && x.prevEma > 0.0 && ContextGate(cfg, iv, x.s, ctx)
      && ScoreIsEnough(cfg, iv, Score(cfg, iv, ProfileOf(cfg, iv), x.s, x.c, ctx))
      && (if x.s.atrAvg > 0.0 then x.s.atr <= cfg.maxAtrRatio * x.s.atrAvg else 1.0 <= cfg.maxAtrRatio)
  {
    SpikeMultipliedOut(x.s.atr, x.s.atrAvg, cfg.maxAtrRatio);
  }

  /** What the context takes off the score. */
  lemma ContextPenaltyIs(cfg: Config, iv: Interval, ctx: Context)
    ensures ContextPenalty(cfg, iv, ctx) ==
      match TrendOf(cfg, ctx)
      case Bullish => 0.0
      case NotBullish => 0.20
      case Absent => if iv in {M15, M15Short, H4, OtherInterval} then cfg.missingPenalty else 0.0
      case Unclear => if iv in {M15, M15Short, H4, D1, OtherInterval} then cfg.missingPenalty else 0.0
  {
  }

  /** The strict 15m score, up to rounding: what is left of one after the distance of the close from
      the fast EMA in ATR (at most 1.2 of it), the body, 0.7 for an RSI between 51 and 54, less the
      context, 0.08 for chasing volume, 0.14 for a hot reading and 0.12 for a late entry. */
  lemma Score15mIs(cfg: Config, s: Bar, c: Row, ctx: Context, away: real, body: real)
    requires s.atr > 0.0 && s.avgVol > 0.0 && s.high > s.low && s.close > s.open && Strict(cfg)
    requires away * s.atr == (if s.close >= s.emaFast then s.close - s.emaFast else s.emaFast - s.close)
    requires body * (s.high - s.low) == s.close - s.open
    ensures var late := s.rsi >= 56.1 && s.close - s.emaFast > 1.2 * s.atr && s.close > s.emaFast;
      var raw := 1.0 - (if away > 1.2 then 1.2 else away) + body + (if 51.0 < s.rsi < 54.0 then 0.7 else 0.0)
                 - ContextPenalty(cfg, M15, ctx)
                 - (if s.volume > 2.6 * s.avgVol && s.rsi >= 52.5 then 0.08 else 0.0)
                 - (if s.high - s.emaFast > 1.65 * s.atr || s.rsi > 55.5 then 0.14 else 0.0)
                 - (if late then 0.12 else 0.0);
      -0.005 <= Score(cfg, M15, ProfileOf(cfg, M15), s, c, ctx) - raw <= 0.005
  {
    var p := ProfileOf(cfg, M15);
    VolumeAbove(s, 2.6);
    QuotientIs(AbsReal(s.close - s.emaFast), s.atr, away);
    QuotientIs(s.close - s.open, s.high - s.low, body);
    assert Body(s) == body;
    Round2IsNearest(1.0 - MinReal(1.2, away) + body + (if p.rsiMin + 3.0 < s.rsi < p.rsiMax - 3.0 then 0.7 else 0.0)
                    - ContextPenalty(cfg, M15, ctx) - ExtensionPenalty(cfg, M15, p, s));
  }

  /** The strict 1h score: the body, 0.8 for an EMA gap half an ATR above the smallest allowed (in
      proportion below), 0.6 for a confirming body of 32 % (the same), and 0.45 or 0.2 for the RSI. */
  lemma Score1hIs(cfg: Config, s: Bar, c: Row, ctx: Context, body: real, gap: real, confirm: real)
    requires s.atr > 0.0 && s.high > s.low && s.close > s.open && c.high > c.low && c.close > c.open && Strict(cfg)
    requires body * (s.high - s.low) == s.close - s.open && gap * s.atr == s.emaFast - s.emaMid
    requires confirm * (c.high - c.low) == c.close - c.open
    ensures
      var raw := body + (if gap - cfg.minSpread >= 0.5 then 0.8 else 1.6 * (gap - cfg.minSpread))
                 + (if confirm >= 0.32 then 0.6 else 1.875 * confirm)
                 + (if 50.0 <= s.rsi <= 55.5 then 0.45 else 0.2) - ContextPenalty(cfg, H1, ctx);
      -0.005 <= Score(cfg, H1, ProfileOf(cfg, H1), s, c, ctx) - raw <= 0.005
  {
    QuotientIs(s.close - s.open, s.high - s.low, body);
    QuotientIs(s.emaFast - s.emaMid, s.atr, gap);
    QuotientIs(c.close - c.open, c.high - c.low, confirm);
    assert Body(s) == body && Spread(s) == gap && ConfirmBody(c) == confirm;
    Round2IsNearest(body + 0.80 * MinReal(1.0, (gap - cfg.minSpread) * 2.0) + 0.60 * MinReal(1.0, confirm / 0.32)
                    + (if 50.0 <= s.rsi <= 55.5 then 0.45 else 0.2) - ContextPenalty(cfg, H1, ctx));
  }

  /** Every other score: the body above its minimum as a share of what is left of the range, twice, an
      RSI five inside its band, and the EMA gap in proportion as at 1h. */
  lemma ScoreElseIs(cfg: Config, iv: Interval, s: Bar, c: Row, ctx: Context, body: real, over: real, gap: real)
    requires s.atr > 0.0 && s.high > s.low && s.close > s.open && !(Strict(cfg) && (iv == M15 || iv == H1))
    requires cfg.minBody <= 0.99 && gap * s.atr == s.emaFast - s.emaMid
    requires body * (s.high - s.low) == s.close - s.open && over * (1.0 - cfg.minBody) == body - cfg.minBody
    ensures
      var raw := (if over > 1.0 then 2.0 else 2.0 * over)
                 + (if cfg.rsiMin + 5.0 < s.rsi < cfg.rsiMax - 5.0 then 1.0 else 0.0)
                 + (if gap - cfg.minSpread >= 0.5 then 1.0 else 2.0 * (gap - cfg.minSpread))
                 - ContextPenalty(cfg, iv, ctx);
      -0.005 <= Score(cfg, iv, ProfileOf(cfg, iv), s, c, ctx) - raw <= 0.005
  {
    QuotientIs(s.close - s.open, s.high - s.low, body);
    QuotientIs(s.emaFast - s.emaMid, s.atr, gap);
    QuotientIs(body - cfg.minBody, 1.0 - cfg.minBody, over);
    assert Body(s) == body && Spread(s) == gap;
    Round2IsNearest(MinReal(2.0, over * 2.0) + (if cfg.rsiMin + 5.0 < s.rsi < cfg.rsiMax - 5.0 then 1.0 else 0.0)
                    + MinReal(1.0, (gap - cfg.minSpread) * 2.0) - ContextPenalty(cfg, iv, ctx) - 0.0);
  }

  // ---- The dispatch -----------------------------------------------------------------------

  function MinRows(cfg: Config): int {
    MaxInt(MaxInt(cfg.emaTrend + 3, cfg.volumeWindow + 3), MaxInt(cfg.atrAvgWindow + 3, cfg.rsiPeriod + 3))
  }

  /** Whichever engine answers: an emitted signal has the shape execution relies on and counts no
      reject, and a call without a signal counts at most one. */
  method EvaluateSignal(df: seq<Row>, ctx: Context, cfg: Config, iv: Interval, log: RejectLog?)
    returns (signal: Option<Signal>)
    requires log != null ==> log.Valid()
    modifies log
    ensures log != null ==> log.Valid()
    ensures signal.Some? ==> WellShaped(cfg, signal.value) && |df| >= 3 && |df| >= MinRows(cfg)
    ensures signal.Some? ==> signal.value.price == df[|df| - 1].close
    ensures signal.Some? && cfg.minRisk > 0.0 && cfg.rr > 0.0 ==> Ordered(signal.value)
    ensures signal.Some? && signal.value.side == Sell ==> Strict(cfg) && iv == M15Short
    ensures log != null && signal.Some? ==> log.bumps == old(log.bumps)
    ensures log != null ==> log.bumps == old(log.bumps) || OneMore(old(log.bumps), log.bumps)
  {
    if df == [] || |df| < MinRows(cfg) || |df| < 3 {
      return None;
    }
    if Strict(cfg) && iv == H4 {
      signal := BosEngine.EvaluateBos4h(df, ctx, cfg, log);
    } else if Strict(cfg) && iv == D1 {
      signal := OtherEngines.EvaluateNr4(df, ctx, cfg, log);
    } else if Strict(cfg) && iv == M15Short {
      signal := OtherEngines.EvaluateShort15m(df, ctx, cfg, log);
    } else {
      signal := EvaluatePullback(df, ctx, cfg, iv, log);
    }
    if signal.Some? && cfg.minRisk > 0.0 && cfg.rr > 0.0 {
      BandOrdersLevels(cfg, signal.value);
    }
  }
}
