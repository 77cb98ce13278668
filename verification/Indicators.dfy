/** The recurrences behind the indicators (indicators.py): exponentially weighted means, true
    range, relative strength. */
module Indicators {
  import opened Common

  /** One smoothing step. */
  function Mix(alpha: real, previous: real, x: real): real {
    (1.0 - alpha) * previous + alpha * x
  }

  /** `ewm(alpha, adjust=False).mean()`, its last value. */
  function Ewm(alpha: real, xs: seq<real>): real
    requires xs != []
  {
    if |xs| == 1 then xs[0]
    else Mix(alpha, Ewm(alpha, xs[..|xs| - 1]), xs[|xs| - 1])
  }

  function Power(b: real, k: nat): real {
    if k == 0 then 1.0 else b * Power(b, k - 1)
  }

  function Negated(xs: seq<real>): (ys: seq<real>)
    ensures |ys| == |xs|
  {
    seq(|xs|, i requires 0 <= i < |xs| => -xs[i])
  }

  /** The smoothing of `ema(series, period)` and of ATR and RSI. */
  function EmaAlpha(period: nat): real {
    2.0 / (period + 1) as real
  }

  function WilderAlpha(period: nat): real
    requires period > 0
  {
    1.0 / period as real
  }

  /** What makes the two smoothings what they are: the EMA weighs the newest sample two parts in
      period + 1, the smoothing of ATR and RSI one part in period. */
  lemma AlphasAreShares(period: nat)
    requires period > 0
    ensures EmaAlpha(period) * (period as real + 1.0) == 2.0
    ensures WilderAlpha(period) * period as real == 1.0
  {
  }

  lemma AlphaInRange(period: nat)
    requires period > 0
    ensures 0.0 < EmaAlpha(period) <= 1.0 && 0.0 < WilderAlpha(period) <= 1.0
  {
    var p := period as real;
    assert EmaAlpha(period) * (p + 1.0) == 2.0;
    assert WilderAlpha(period) * p == 1.0;
  }

  lemma MixWithin(alpha: real, a: real, b: real, lo: real, hi: real)
    requires 0.0 <= alpha <= 1.0 && lo <= a <= hi && lo <= b <= hi
    ensures lo <= Mix(alpha, a, b) <= hi
  {
    assert 0.0 <= (1.0 - alpha) * (a - lo) && 0.0 <= alpha * (b - lo);
    assert 0.0 <= (1.0 - alpha) * (hi - a) && 0.0 <= alpha * (hi - b);
  }

  /** The mean never leaves the range of the samples so far. */
  lemma {:induction false} EwmWithinRange(alpha: real, xs: seq<real>, lo: real, hi: real)
    requires xs != [] && 0.0 <= alpha <= 1.0
    requires forall i :: 0 <= i < |xs| ==> lo <= xs[i] <= hi
    ensures lo <= Ewm(alpha, xs) <= hi
  {
    if |xs| > 1 {
      EwmWithinRange(alpha, xs[..|xs| - 1], lo, hi);
      MixWithin(alpha, Ewm(alpha, xs[..|xs| - 1]), xs[|xs| - 1], lo, hi);
    }
  }

  lemma MixDifference(alpha: real, a: real, b: real, x: real, d: real, power: real)
    requires a - b == power * d
    ensures Mix(alpha, a, x) - Mix(alpha, b, x) == (1.0 - alpha) * power * d
  {
    var r := 1.0 - alpha;
    assert r * a - r * b == r * (a - b);
    assert r * (power * d) == r * power * d;
  }

  lemma EwmAppend(alpha: real, p: seq<real>, rest: seq<real>, x: real)
    requires p != []
    ensures Ewm(alpha, p + (rest + [x])) == Mix(alpha, Ewm(alpha, p + rest), x)
  {
    var all := p + (rest + [x]);
    assert all[..|all| - 1] == p + rest;
  }

  function Gap(alpha: real, p: seq<real>, q: seq<real>): real
    requires p != [] && q != []
  {
    Ewm(alpha, p) - Ewm(alpha, q)
  }

  lemma GapStep(alpha: real, p: seq<real>, q: seq<real>, rest: seq<real>, x: real, power: real, gap: real)
    requires p != [] && q != [] && Gap(alpha, p + rest, q + rest) == power * gap
    ensures Gap(alpha, p + (rest + [x]), q + (rest + [x])) == (1.0 - alpha) * power * gap
  {
    EwmAppend(alpha, p, rest, x);
    EwmAppend(alpha, q, rest, x);
    MixDifference(alpha, Ewm(alpha, p + rest), Ewm(alpha, q + rest), x, gap, power);
  }

  lemma FadeOneMore(alpha: real, p: seq<real>, q: seq<real>, rest: seq<real>, x: real)
    requires p != [] && q != []
    requires Gap(alpha, p + rest, q + rest) == Power(1.0 - alpha, |rest|) * Gap(alpha, p, q)
    ensures Gap(alpha, p + (rest + [x]), q + (rest + [x])) == Power(1.0 - alpha, |rest + [x]|) * Gap(alpha, p, q)
  {
    GapStep(alpha, p, q, rest, x, Power(1.0 - alpha, |rest|), Gap(alpha, p, q));
  }

  /** Warm-up: two runs that share their last k samples differ by exactly (1 - alpha)^k times the
      difference they had before them. */
  lemma {:induction false} WarmUpFades(alpha: real, p: seq<real>, q: seq<real>, shared: seq<real>)
    requires p != [] && q != []
    ensures Gap(alpha, p + shared, q + shared) == Power(1.0 - alpha, |shared|) * Gap(alpha, p, q)
  {
    if shared == [] {
      assert p + shared == p && q + shared == q;
    } else {
      var k := |shared| - 1;
      WarmUpFades(alpha, p, q, shared[..k]);
      FadeOneMore(alpha, p, q, shared[..k], shared[k]);
      assert shared[..k] + [shared[k]] == shared;
    }
  }

  lemma {:induction false} EwmNegates(alpha: real, xs: seq<real>)
    requires xs != []
    ensures Ewm(alpha, Negated(xs)) == -Ewm(alpha, xs)
  {
    if |xs| > 1 {
      var k := |xs| - 1;
      assert Negated(xs)[..k] == Negated(xs[..k]);
      EwmNegates(alpha, xs[..k]);
      var e := Ewm(alpha, xs[..k]);
      assert (1.0 - alpha) * (-e) == -((1.0 - alpha) * e);
      assert alpha * (-xs[k]) == -(alpha * xs[k]);
    }
  }

  // ---- RSI --------------------------------------------------------------------------------

  /** Upward moves; the first sample has none. */
  function Gains(xs: seq<real>): (g: seq<real>)
    ensures |g| == |xs|
    ensures forall i :: 0 <= i < |g| ==> g[i] >= 0.0
  {
    seq(|xs|, i requires 0 <= i < |xs| => if i > 0 && xs[i] - xs[i - 1] > 0.0 then xs[i] - xs[i - 1] else 0.0)
  }

  /** Downward moves, as positive numbers. */
  function Losses(xs: seq<real>): (l: seq<real>)
    ensures |l| == |xs|
    ensures forall i :: 0 <= i < |l| ==> l[i] >= 0.0
  {
    seq(|xs|, i requires 0 <= i < |xs| => if i > 0 && xs[i] - xs[i - 1] < 0.0 then -(xs[i] - xs[i - 1]) else 0.0)
  }

  /** Gains and losses split every move: their difference is the move, and at most one is not zero;
      the first sample has neither. */
  lemma GainsLessLossesAreMoves(xs: seq<real>, i: nat)
    requires i < |xs|
    ensures Gains(xs)[i] - Losses(xs)[i] == (if i == 0 then 0.0 else xs[i] - xs[i - 1])
    ensures Gains(xs)[i] == 0.0 || Losses(xs)[i] == 0.0
  {
  }

  /** `rsi` on average gain and loss: no losses makes the ratio infinite, and no movement at all
      makes it undefined. */
  function RsiOf(gain: real, loss: real): Option<real>
    requires gain >= 0.0 && loss >= 0.0
  {
    if loss == 0.0 then (if gain == 0.0 then None else Some(100.0))
    else Some(100.0 - 100.0 / (1.0 + gain / loss))
  }

  lemma {:induction false} EwmNonnegative(alpha: real, xs: seq<real>)
    requires xs != [] && 0.0 <= alpha <= 1.0
    requires forall i :: 0 <= i < |xs| ==> xs[i] >= 0.0
    ensures Ewm(alpha, xs) >= 0.0
  {
    if |xs| > 1 {
      var e := Ewm(alpha, xs[..|xs| - 1]);
      EwmNonnegative(alpha, xs[..|xs| - 1]);
      assert (1.0 - alpha) * e >= 0.0 && alpha * xs[|xs| - 1] >= 0.0;
    }
  }

  function Rsi(xs: seq<real>, period: nat): Option<real>
    requires xs != [] && period > 0
  {
    AlphaInRange(period);
    EwmNonnegative(WilderAlpha(period), Gains(xs));
    EwmNonnegative(WilderAlpha(period), Losses(xs));
    RsiOf(Ewm(WilderAlpha(period), Gains(xs)), Ewm(WilderAlpha(period), Losses(xs)))
  }

  /** RSI is the share of gains in all movement, in percent. */
  lemma RsiIsShareOfGains(gain: real, loss: real)
    requires gain >= 0.0 && loss >= 0.0
    ensures RsiOf(gain, loss).Some? <==> gain + loss > 0.0
    ensures gain + loss > 0.0 ==> RsiOf(gain, loss).value * (gain + loss) == 100.0 * gain
  {
    if loss > 0.0 {
      var ratio := gain / loss;
      assert ratio * loss == gain;
      assert ratio >= 0.0;
      var y := 100.0 / (1.0 + ratio);
      assert y * (1.0 + ratio) == 100.0;
      assert y * (gain + loss) == y * (1.0 + ratio) * loss;
    }
  }

  lemma ShareInRange(value: real, part: real, rest: real)
    requires part >= 0.0 && rest >= 0.0 && part + rest > 0.0 && value * (part + rest) == 100.0 * part
    ensures 0.0 <= value <= 100.0
  {
    ScaleLess(0.0, value, part + rest);
    ScaleLess(value, 100.0, part + rest);
  }

  lemma GainsMirrorLosses(xs: seq<real>)
    ensures Gains(Negated(xs)) == Losses(xs) && Losses(Negated(xs)) == Gains(xs)
  {
  }

  lemma SharesAddUp(v: real, w: real, gain: real, loss: real)
    requires gain + loss > 0.0 && v * (gain + loss) == 100.0 * gain && w * (gain + loss) == 100.0 * loss
    ensures v + w == 100.0
  {
    assert (v + w - 100.0) * (gain + loss) == 0.0;
  }

  lemma RsiOfMirror(gain: real, loss: real)
    requires gain >= 0.0 && loss >= 0.0
    ensures RsiOf(gain, loss).Some? == RsiOf(loss, gain).Some? == (gain + loss > 0.0)
    ensures gain + loss > 0.0 ==>
      0.0 <= RsiOf(gain, loss).value <= 100.0 && RsiOf(loss, gain).value == 100.0 - RsiOf(gain, loss).value
  {
    RsiIsShareOfGains(gain, loss);
    RsiIsShareOfGains(loss, gain);
    if gain + loss > 0.0 {
      ShareInRange(RsiOf(gain, loss).value, gain, loss);
      SharesAddUp(RsiOf(gain, loss).value, RsiOf(loss, gain).value, gain, loss);
    }
  }

  /** RSI lies in [0, 100] whenever it is defined, and the RSI of the negated series is 100 minus
      it; the two are defined together. */
  lemma RsiRangeAndMirror(xs: seq<real>, period: nat)
    requires xs != [] && period > 0
    ensures var r, m := Rsi(xs, period), Rsi(Negated(xs), period);
      && (r.Some? <==> m.Some?)
      && (r.Some? ==> 0.0 <= r.value <= 100.0 && m.value == 100.0 - r.value)
  {
    var alpha := WilderAlpha(period);
    AlphaInRange(period);
    EwmNonnegative(alpha, Gains(xs));
    EwmNonnegative(alpha, Losses(xs));
    GainsMirrorLosses(xs);
    RsiOfMirror(Ewm(alpha, Gains(xs)), Ewm(alpha, Losses(xs)));
  }

  // ---- ATR --------------------------------------------------------------------------------

  datatype Bar = Bar(high: real, low: real, close: real)

  function TrueRange(bars: seq<Bar>, i: nat): real
    requires i < |bars|
  {
    var spread := AbsReal(bars[i].high - bars[i].low);
    if i == 0 then spread
    else MaxReal(spread, MaxReal(AbsReal(bars[i].high - bars[i - 1].close), AbsReal(bars[i].low - bars[i - 1].close)))
  }

  function TrueRanges(bars: seq<Bar>): (tr: seq<real>)
    ensures |tr| == |bars|
  {
    seq(|bars|, i requires 0 <= i < |bars| => TrueRange(bars, i))
  }

  function Atr(bars: seq<Bar>, period: nat): real
    requires bars != [] && period > 0
  {
    Ewm(WilderAlpha(period), TrueRanges(bars))
  }

  /** The true range of a well-formed bar is exactly the stretch of prices since the last close. */
  lemma TrueRangeIsPath(bars: seq<Bar>, i: nat)
    requires i < |bars| && bars[i].low <= bars[i].high
    ensures TrueRange(bars, i) ==
      if i == 0 then bars[i].high - bars[i].low
      else MaxReal(bars[i].high, bars[i - 1].close) - MinReal(bars[i].low, bars[i - 1].close)
  {
  }

  /** On well-formed bars the true range covers the whole path since the last close, so ATR is
      never negative and never above the largest such path. */
  lemma AtrBounds(bars: seq<Bar>, period: nat, widest: real)
    requires bars != [] && period > 0
    requires forall i :: 0 <= i < |bars| ==> bars[i].low <= bars[i].high
    requires forall i :: 0 <= i < |bars| ==>
      var top := if i == 0 then bars[i].high else MaxReal(bars[i].high, bars[i - 1].close);
      var bottom := if i == 0 then bars[i].low else MinReal(bars[i].low, bars[i - 1].close);
      top - bottom <= widest
    ensures 0.0 <= Atr(bars, period) <= widest
  {
    AlphaInRange(period);
    var tr := TrueRanges(bars);
    forall i | 0 <= i < |tr| ensures 0.0 <= tr[i] <= widest {
      assert bars[i].low <= bars[i].high;
    }
    EwmWithinRange(WilderAlpha(period), tr, 0.0, widest);
  }
}
