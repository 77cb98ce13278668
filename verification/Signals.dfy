/** What the four signal engines share (strategy.py): rows, settings, the reject counter and the
    shape every emitted signal has.  Text fields of a signal are not modelled. */
module Signals {
  import opened Common

  /** A candle with its indicator columns; None stands for NaN. */
  datatype Row = Row(open: real, high: real, low: real, close: real, volume: real,
                     emaFast: Option<real>, emaMid: Option<real>, emaTrend: Option<real>,
                     atr: Option<real>, atrAvg: Option<real>, avgVol: Option<real>, rsi: Option<real>)

  /** The same candle with every column present. */
  datatype Bar = Bar(open: real, high: real, low: real, close: real, volume: real,
                     emaFast: real, emaMid: real, emaTrend: real,
                     atr: real, atrAvg: real, avgVol: real, rsi: real)

  datatype Config = Config(emaMid: int, emaTrend: int, rsiMin: real, rsiMax: real, volumeMin: real, pullbackTol: real,
                           minSpread: real, maxSpread: real, minBody: real, rr: real, minRisk: real, maxRisk: real,
                           minScore: real, missingPenalty: real, maxAtrRatio: real,
                           atrAvgWindow: int, volumeWindow: int, rsiPeriod: int)

  /** The higher timeframe: how many rows it has, and its last values. */
  datatype Context = Context(rows: nat, emaMid: Option<real>, emaTrend: Option<real>, price: real)

  datatype Trend = Absent | Unclear | Bullish | NotBullish

  datatype Bias = LongBias | NeutralBias | ShortBias

  datatype Signal = Signal(side: Side, price: real, stop: real, tp: real, risk: real, rr: real, atr: real,
                           score: real, bias: Bias)

  function TrendOf(cfg: Config, ctx: Context): Trend {
    if ctx.rows == 0 || ctx.rows < MaxInt(cfg.emaMid, cfg.emaTrend) then Absent
    else if ctx.emaMid.None? || ctx.emaTrend.None? then Unclear
    else if ctx.emaMid.value > ctx.emaTrend.value && ctx.price > ctx.emaMid.value then Bullish
    else NotBullish
  }

  function Complete(r: Row): Option<Bar> {
    if r.emaFast.Some? && r.emaMid.Some? && r.emaTrend.Some? && r.atr.Some? && r.atrAvg.Some? && r.avgVol.Some?
       && r.rsi.Some?
    then Some(Bar(r.open, r.high, r.low, r.close, r.volume, r.emaFast.value, r.emaMid.value, r.emaTrend.value,
                  r.atr.value, r.atrAvg.value, r.avgVol.value, r.rsi.value))
    else None
  }

  function BodyRatio(open: real, high: real, low: real, close: real): real {
    if high - low > 0.0 then AbsReal(close - open) / (high - low) else 0.0
  }

  function Ratio(x: real, y: real, otherwise: real): real {
    if y > 0.0 then x / y else otherwise
  }

  /** Two decimals, ties to even. */
  function Round2(x: real): real {
    var n := (x * 100.0).Floor;
    var rest := x * 100.0 - n as real;
    var m := if rest < 0.5 then n else if rest > 0.5 then n + 1 else if n % 2 == 0 then n else n + 1;
    m as real / 100.0
  }

  /** The risk is inside its ATR band. */
  predicate RiskFits(cfg: Config, risk: real, atr: real) {
    cfg.minRisk * atr <= risk <= cfg.maxRisk * atr
  }

  /** What execution relies on: the stop is one risk away on the losing side, the target rr risks
      away on the other, and the risk lies within its ATR band. */
  predicate WellShaped(cfg: Config, s: Signal) {
    && RiskFits(cfg, s.risk, s.atr)
    && match s.side
       case Buy => s.stop == s.price - s.risk && s.tp == s.price + s.rr * s.risk
       case Sell => s.stop == s.price + s.risk && s.tp == s.price - s.rr * s.risk
  }

  /** Stop and target are on their sides of the price. */
  predicate Ordered(s: Signal) {
    match s.side
    case Buy => s.stop < s.price < s.tp
    case Sell => s.tp < s.price < s.stop
  }

  lemma PositiveProduct(a: real, b: real)
    requires a > 0.0 && b > 0.0
    ensures a * b > 0.0
  {
  }

  /** A well-shaped signal has its levels in order exactly when its risk is positive, */
  lemma OrderedIffRisk(cfg: Config, s: Signal)
    requires WellShaped(cfg, s) && s.rr > 0.0
    ensures Ordered(s) <==> s.risk > 0.0
  {
    if s.risk > 0.0 {
      PositiveProduct(s.rr, s.risk);
    }
  }

  /** which a positive lower edge of the ATR band guarantees. */
  lemma BandOrdersLevels(cfg: Config, s: Signal)
    requires WellShaped(cfg, s) && s.rr > 0.0 && s.atr > 0.0 && cfg.minRisk > 0.0
    ensures Ordered(s)
  {
    PositiveProduct(cfg.minRisk, s.atr);
    OrderedIffRisk(cfg, s);
  }

  /** Rounding to cents keeps the order, so it keeps every bound that is itself a number of cents. */
  lemma Round2Monotone(x: real, y: real)
    requires x <= y
    ensures Round2(x) <= Round2(y)
  {
    assert (x * 100.0).Floor <= (y * 100.0).Floor;
  }

  /** It leaves whole cents alone. */
  lemma Round2OfCents(cents: int)
    ensures Round2(cents as real / 100.0) == cents as real / 100.0
  {
    assert cents as real / 100.0 * 100.0 == cents as real;
  }

  lemma QuotientOfPart(part: real, whole: real)
    requires 0.0 <= part <= whole && whole > 0.0
    ensures 0.0 <= part / whole <= 1.0
  {
    var ratio := part / whole;
    assert ratio * whole == part;
    ScaleLess(ratio, 1.0, whole);
    ScaleLess(0.0, ratio, whole);
  }

  /** On a candle whose open and close are inside its range, the body is at most the range. */
  lemma BodyWithinRange(open: real, high: real, low: real, close: real)
    requires low <= open <= high && low <= close <= high
    ensures 0.0 <= BodyRatio(open, high, low, close) <= 1.0
  {
    if high - low > 0.0 {
      QuotientOfPart(AbsReal(close - open), high - low);
    }
  }

  /** A share of a positive whole is at least `x` exactly when the part is at least `x` times it. */
  lemma ShareAtLeast(part: real, whole: real, x: real)
    requires whole > 0.0
    ensures part / whole >= x <==> part >= x * whole
  {
    var ratio := part / whole;
    assert ratio * whole == part;
    if ratio >= x {
      ScaleLess(x, ratio, whole);
    } else {
      assert (x - ratio) * whole > 0.0 by { PositiveProduct(x - ratio, whole); }
      assert (x - ratio) * whole == x * whole - ratio * whole;
    }
  }

  lemma ShareAtMost(part: real, whole: real, x: real)
    requires whole > 0.0
    ensures part / whole <= x <==> part <= x * whole
  {
    assert part / whole * whole == part;
    ScaleLess(part / whole, x, whole);
  }

  lemma QuotientIs(part: real, whole: real, share: real)
    requires whole > 0.0 && share * whole == part
    ensures part / whole == share
  {
    ShareAtLeast(part, whole, share);
    ShareAtMost(part, whole, share);
  }

  /** What the two ratios mean without a division, */
  lemma RatiosMultipliedOut(open: real, high: real, low: real, close: real, volume: real, avgVol: real, x: real)
    requires high > low && avgVol > 0.0
    ensures BodyRatio(open, high, low, close) >= x <==>
      (if close >= open then close - open else open - close) >= x * (high - low)
    ensures Ratio(volume, avgVol, 0.0) >= x <==> volume >= x * avgVol
  {
    ShareAtLeast(AbsReal(close - open), high - low, x);
    ShareAtLeast(volume, avgVol, x);
  }

  /** and of the limit on the ATR: it may exceed its average by the configured factor, and without a
      positive average it passes exactly when one does. */
  lemma SpikeMultipliedOut(atr: real, atrAvg: real, limit: real)
    ensures Ratio(atr, atrAvg, 1.0) <= limit <==> if atrAvg > 0.0 then atr <= limit * atrAvg else 1.0 <= limit
  {
    if atrAvg > 0.0 {
      ShareAtMost(atr, atrAvg, limit);
    }
  }

  /** Rounding moves a score by at most half a cent, */
  lemma Round2IsNearest(x: real)
    ensures -0.005 <= Round2(x) - x <= 0.005
  {
  }

  /** onto a whole number of cents, an even one when two are equally near. */
  lemma Round2IsCents(x: real) returns (cents: int)
    ensures Round2(x) == cents as real / 100.0
    ensures cents as real - x * 100.0 == 0.5 || cents as real - x * 100.0 == -0.5 ==> cents % 2 == 0
  {
    var n := (x * 100.0).Floor;
    var rest := x * 100.0 - n as real;
    cents := if rest < 0.5 then n else if rest > 0.5 then n + 1 else if n % 2 == 0 then n else n + 1;
  }

  /** The higher timeframe speaks once it has the longer EMA's rows and both EMAs: for the long side
      when the EMAs are in order and the price is above the middle one, against it otherwise. */
  lemma TrendSpeaksIff(cfg: Config, ctx: Context)
    ensures var speaks := ctx.rows > 0 && ctx.rows >= cfg.emaMid && ctx.rows >= cfg.emaTrend
                          && ctx.emaMid.Some? && ctx.emaTrend.Some?;
      && (TrendOf(cfg, ctx) in {Bullish, NotBullish} <==> speaks)
      && (TrendOf(cfg, ctx) == Bullish <==>
            speaks && ctx.emaTrend.value < ctx.emaMid.value < ctx.price)
  {
  }

  /** A complete candle has every column, and its bar carries them unchanged. */
  lemma CompleteIff(r: Row, b: Bar)
    ensures Complete(r) == Some(b) <==>
      && r.open == b.open && r.high == b.high && r.low == b.low && r.close == b.close && r.volume == b.volume
      && r.emaFast == Some(b.emaFast) && r.emaMid == Some(b.emaMid) && r.emaTrend == Some(b.emaTrend)
      && r.atr == Some(b.atr) && r.atrAvg == Some(b.atrAvg) && r.avgVol == Some(b.avgVol) && r.rsi == Some(b.rsi)
  {
  }

  /** The reject dictionary; `bumps` lists every reject in order. */
  class RejectLog {
    var counts: map<string, nat>
    ghost var bumps: seq<string>

    function Count(key: string): nat
      reads this
    {
      if key in counts then counts[key] else 0
    }

    ghost predicate Valid()
      reads this
    {
      forall key :: Count(key) == multiset(bumps)[key]
    }

    constructor ()
      ensures Valid() && counts == map[] && bumps == []
    {
      counts, bumps := map[], [];
    }

    method Bump(key: string)
      requires Valid()
      modifies this
      ensures Valid() && bumps == old(bumps) + [key]
    {
      counts := counts[key := (if key in counts then counts[key] else 0) + 1];
      bumps := bumps + [key];
    }
  }

  /** Exactly one reject was counted. */
  ghost predicate OneMore(before: seq<string>, after: seq<string>) {
    |after| == |before| + 1 && after[..|before|] == before
  }

  /** `_bump_reject`: nothing happens without a dictionary. */
  method BumpReject(log: RejectLog?, key: string)
    requires log != null ==> log.Valid()
    modifies log
    ensures log != null ==> log.Valid() && log.bumps == old(log.bumps) + [key]
  {
    if log != null {
      log.Bump(key);
    }
  }
}
