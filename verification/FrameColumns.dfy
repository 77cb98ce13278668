/** The indicator columns of the simulated frame and of its context (backtest/backtest.py, lines
    438-444, 486-503 and 525-530).  They are computed over the whole frame before the walk starts, so
    what keeps them from looking ahead is that each is causal. */
module FrameColumns {
  import opened Common
  import opened Indicators
  import opened ExitScan
  import opened Simulation
  import opened SimulationLaws

  datatype Row = Row(open: real, high: real, low: real, close: real, volume: real, closeTime: int)

  datatype Periods = Periods(fast: nat, mid: nat, trend: nat, atr: nat, atrAvg: nat, volume: nat, rsi: nat)

  predicate Valid(p: Periods) {
    p.fast > 0 && p.mid > 0 && p.trend > 0 && p.atr > 0 && p.atrAvg > 0 && p.volume > 0 && p.rsi > 0
  }

  function Closes(rows: seq<Row>): (xs: seq<real>)
    ensures |xs| == |rows|
  {
    seq(|rows|, i requires 0 <= i < |rows| => rows[i].close)
  }

  function Volumes(rows: seq<Row>): (xs: seq<real>)
    ensures |xs| == |rows|
  {
    seq(|rows|, i requires 0 <= i < |rows| => rows[i].volume)
  }

  function Bars(rows: seq<Row>): (bars: seq<Bar>)
    ensures |bars| == |rows|
  {
    seq(|rows|, i requires 0 <= i < |rows| => Bar(rows[i].high, rows[i].low, rows[i].close))
  }

  // ---- Columns ----------------------------------------------------------------------------

  /** The whole column of an exponential mean: each value from the one before and one sample. */
  function EwmColumn(alpha: real, xs: seq<real>): (ys: seq<real>)
    ensures |ys| == |xs|
  {
    if |xs| <= 1 then xs
    else
      var n := |xs| - 1;
      var before := EwmColumn(alpha, xs[..n]);
      before + [Mix(alpha, before[n - 1], xs[n])]
  }

  function EmaColumn(rows: seq<Row>, period: nat): (ys: seq<real>)
    ensures |ys| == |rows|
  {
    EwmColumn(EmaAlpha(period), Closes(rows))
  }

  function AtrColumn(rows: seq<Row>, period: nat): (ys: seq<real>)
    requires period > 0
    ensures |ys| == |rows|
  {
    EwmColumn(WilderAlpha(period), TrueRanges(Bars(rows)))
  }

  function Sum(xs: seq<real>): real {
    if xs == [] then 0.0 else Sum(xs[..|xs| - 1]) + xs[|xs| - 1]
  }

  /** `rolling(window).mean()`: no value before the window is full. */
  function RollingMean(xs: seq<real>, window: nat, i: nat): Option<real>
    requires i < |xs| && window > 0
  {
    if i + 1 < window then None else Some(Sum(xs[i + 1 - window..i + 1]) / window as real)
  }

  /** The ratio of the average gain and loss columns at one row. */
  function RsiAt(rows: seq<Row>, period: nat, i: nat): Option<real>
    requires i < |rows| && period > 0
  {
    var gains, losses := EwmColumn(WilderAlpha(period), Gains(Closes(rows))),
                         EwmColumn(WilderAlpha(period), Losses(Closes(rows)));
    if gains[i] >= 0.0 && losses[i] >= 0.0 then RsiOf(gains[i], losses[i]) else None
  }

  /** The frame the walk runs on. */
  function Enriched(p: Periods, rows: seq<Row>): (df: seq<Candle>)
    requires Valid(p)
    ensures |df| == |rows|
  {
    var fast, mid, trend := EmaColumn(rows, p.fast), EmaColumn(rows, p.mid), EmaColumn(rows, p.trend);
    var atr := AtrColumn(rows, p.atr);
    seq(|rows|, i requires 0 <= i < |rows| =>
      Candle(rows[i].high, rows[i].low, rows[i].close, rows[i].closeTime,
             [Some(rows[i].open), Some(rows[i].volume), Some(fast[i]), Some(mid[i]), Some(trend[i]), Some(atr[i]),
              RollingMean(atr, p.atrAvg, i), RollingMean(Volumes(rows), p.volume, i), RsiAt(rows, p.rsi, i)]))
  }

  /** The context the walk is given, with its two trend columns. */
  function EnrichedContext(p: Periods, rows: seq<Row>): (context: seq<ContextRow>)
    requires Valid(p)
    ensures |context| == |rows|
  {
    var mid, trend := EmaColumn(rows, p.mid), EmaColumn(rows, p.trend);
    seq(|rows|, i requires 0 <= i < |rows| =>
      ContextRow(rows[i].closeTime, [Some(rows[i].open), Some(rows[i].high), Some(rows[i].low), Some(rows[i].close),
                                     Some(rows[i].volume), Some(mid[i]), Some(trend[i])]))
  }

  // ---- Causality --------------------------------------------------------------------------

  /** The column's value at a row is the mean of the samples up to that row. */
  lemma {:induction false} EwmColumnAt(alpha: real, xs: seq<real>, i: nat)
    requires i < |xs|
    ensures EwmColumn(alpha, xs)[i] == Ewm(alpha, xs[..i + 1])
  {
    var n := |xs| - 1;
    if i < n {
      EwmColumnAt(alpha, xs[..n], i);
      assert xs[..n][..i + 1] == xs[..i + 1];
    } else {
      assert xs[..i + 1] == xs;
      if n > 0 {
        EwmColumnAt(alpha, xs[..n], n - 1);
        assert xs[..n][..n] == xs[..n];
      }
    }
  }

  lemma InputsPrefix(rows: seq<Row>, k: nat)
    requires k <= |rows|
    ensures Closes(rows[..k]) == Closes(rows)[..k]
    ensures Volumes(rows[..k]) == Volumes(rows)[..k]
    ensures TrueRanges(Bars(rows[..k])) == TrueRanges(Bars(rows))[..k]
    ensures Gains(Closes(rows[..k])) == Gains(Closes(rows))[..k]
    ensures Losses(Closes(rows[..k])) == Losses(Closes(rows))[..k]
  {
    assert Bars(rows[..k]) == Bars(rows)[..k];
  }

  /** Read at row `i`, the columns are the indicators of the rows up to `i`. */
  lemma ColumnsAreIndicators(rows: seq<Row>, period: nat, i: nat)
    requires i < |rows| && period > 0
    ensures EmaColumn(rows, period)[i] == Ewm(EmaAlpha(period), Closes(rows[..i + 1]))
    ensures AtrColumn(rows, period)[i] == Atr(Bars(rows[..i + 1]), period)
    ensures RsiAt(rows, period, i) == Rsi(Closes(rows[..i + 1]), period)
  {
    InputsPrefix(rows, i + 1);
    EwmColumnAt(EmaAlpha(period), Closes(rows), i);
    EwmColumnAt(WilderAlpha(period), TrueRanges(Bars(rows)), i);
    EwmColumnAt(WilderAlpha(period), Gains(Closes(rows)), i);
    EwmColumnAt(WilderAlpha(period), Losses(Closes(rows)), i);
    AlphaInRange(period);
    EwmNonnegative(WilderAlpha(period), Gains(Closes(rows[..i + 1])));
    EwmNonnegative(WilderAlpha(period), Losses(Closes(rows[..i + 1])));
  }

  lemma {:induction false} EwmColumnPrefix(alpha: real, xs: seq<real>, k: nat)
    requires k <= |xs|
    ensures EwmColumn(alpha, xs)[..k] == EwmColumn(alpha, xs[..k])
  {
    if k == |xs| {
      assert xs[..k] == xs;
    } else if |xs| > 1 {
      var n := |xs| - 1;
      EwmColumnPrefix(alpha, xs[..n], k);
      assert xs[..n][..k] == xs[..k];
      assert EwmColumn(alpha, xs)[..k] == EwmColumn(alpha, xs[..n])[..k];
    }
  }

  lemma ColumnsPrefix(p: Periods, rows: seq<Row>, k: nat)
    requires Valid(p) && k <= |rows|
    ensures EmaColumn(rows[..k], p.fast) == EmaColumn(rows, p.fast)[..k]
    ensures EmaColumn(rows[..k], p.mid) == EmaColumn(rows, p.mid)[..k]
    ensures EmaColumn(rows[..k], p.trend) == EmaColumn(rows, p.trend)[..k]
    ensures AtrColumn(rows[..k], p.atr) == AtrColumn(rows, p.atr)[..k]
  {
    InputsPrefix(rows, k);
    EwmColumnPrefix(EmaAlpha(p.fast), Closes(rows), k);
    EwmColumnPrefix(EmaAlpha(p.mid), Closes(rows), k);
    EwmColumnPrefix(EmaAlpha(p.trend), Closes(rows), k);
    EwmColumnPrefix(WilderAlpha(p.atr), TrueRanges(Bars(rows)), k);
  }

  lemma RsiPrefix(rows: seq<Row>, period: nat, k: nat, i: nat)
    requires period > 0 && i < k <= |rows|
    ensures RsiAt(rows[..k], period, i) == RsiAt(rows, period, i)
  {
    InputsPrefix(rows, k);
    EwmColumnPrefix(WilderAlpha(period), Gains(Closes(rows)), k);
    EwmColumnPrefix(WilderAlpha(period), Losses(Closes(rows)), k);
  }

  lemma RollingPrefix(xs: seq<real>, window: nat, k: nat, i: nat)
    requires window > 0 && i < k <= |xs|
    ensures RollingMean(xs[..k], window, i) == RollingMean(xs, window, i)
  {
    if i + 1 >= window {
      assert xs[..k][i + 1 - window..i + 1] == xs[i + 1 - window..i + 1];
    }
  }

  /** Every column is causal: enriching the frame and cutting it is cutting it and enriching what is
      left, so a candle depends on no row after it. */
  lemma EnrichedPrefix(p: Periods, rows: seq<Row>, k: nat)
    requires Valid(p) && k <= |rows|
    ensures Enriched(p, rows)[..k] == Enriched(p, rows[..k])
  {
    ColumnsPrefix(p, rows, k);
    InputsPrefix(rows, k);
    forall i | 0 <= i < k ensures Enriched(p, rows)[i] == Enriched(p, rows[..k])[i] {
      RsiPrefix(rows, p.rsi, k, i);
      RollingPrefix(AtrColumn(rows, p.atr), p.atrAvg, k, i);
      RollingPrefix(Volumes(rows), p.volume, k, i);
    }
  }

  lemma EnrichedContextPrefix(p: Periods, rows: seq<Row>, k: nat)
    requires Valid(p) && k <= |rows|
    ensures EnrichedContext(p, rows)[..k] == EnrichedContext(p, rows[..k])
  {
    ColumnsPrefix(p, rows, k);
  }

  /** Row `i` of the frame carries the raw values of its candle and, in this order, the indicators of
      the rows up to `i`. */
  lemma EnrichedRow(p: Periods, rows: seq<Row>, i: nat)
    requires Valid(p) && i < |rows|
    ensures var c, upTo := Enriched(p, rows)[i], rows[..i + 1];
      var atr := AtrColumn(rows, p.atr);
      && c.high == rows[i].high && c.low == rows[i].low && c.close == rows[i].close && c.closeTime == rows[i].closeTime
      && c.rest == [Some(rows[i].open), Some(rows[i].volume),
                    Some(Ewm(EmaAlpha(p.fast), Closes(upTo))), Some(Ewm(EmaAlpha(p.mid), Closes(upTo))),
                    Some(Ewm(EmaAlpha(p.trend), Closes(upTo))), Some(Atr(Bars(upTo), p.atr)),
                    RollingMean(atr, p.atrAvg, i), RollingMean(Volumes(rows), p.volume, i),
                    Rsi(Closes(upTo), p.rsi)]
  {
    ColumnsAreIndicators(rows, p.fast, i);
    ColumnsAreIndicators(rows, p.mid, i);
    ColumnsAreIndicators(rows, p.trend, i);
    ColumnsAreIndicators(rows, p.atr, i);
    ColumnsAreIndicators(rows, p.rsi, i);
  }

  lemma OneMore(x: real, n: nat)
    ensures x * (n + 1) as real == x * n as real + x
  {
  }

  lemma {:induction false} SumWithin(xs: seq<real>, lo: real, hi: real)
    requires forall j :: 0 <= j < |xs| ==> lo <= xs[j] <= hi
    ensures lo * |xs| as real <= Sum(xs) <= hi * |xs| as real
  {
    if xs != [] {
      var n := |xs| - 1;
      SumWithin(xs[..n], lo, hi);
      OneMore(lo, n);
      OneMore(hi, n);
    }
  }

  /** A rolling mean is defined exactly from its window's last row on, and lies within the range of the
      samples in its window. */
  lemma RollingMeanWithin(xs: seq<real>, window: nat, i: nat, lo: real, hi: real)
    requires i < |xs| && window > 0
    requires forall j :: 0 <= j < |xs| && i - window < j <= i ==> lo <= xs[j] <= hi
    ensures RollingMean(xs, window, i).Some? <==> i >= window - 1
    ensures i >= window - 1 ==> lo <= RollingMean(xs, window, i).value <= hi
  {
    if i >= window - 1 {
      var part, w := xs[i + 1 - window..i + 1], window as real;
      SumWithin(part, lo, hi);
      var mean := Sum(part) / w;
      assert mean * w == Sum(part);
      ScaleLess(lo, mean, w);
      ScaleLess(mean, hi, w);
    }
  }

  // ---- No look-ahead on the downloaded rows -----------------------------------------------

  ghost predicate RowsInOrder(rows: seq<Row>) {
    forall i, j :: 0 <= i < j < |rows| ==> rows[i].closeTime <= rows[j].closeTime
  }

  /** How many rows, in order of closing, have closed by `cutoff`. */
  function Closed(rows: seq<Row>, cutoff: int): (n: nat)
    ensures n <= |rows|
    ensures forall j :: 0 <= j < n ==> rows[j].closeTime <= cutoff
    ensures n < |rows| ==> cutoff < rows[n].closeTime
  {
    if rows == [] || rows[0].closeTime > cutoff then 0 else 1 + Closed(rows[1..], cutoff)
  }

  /** Two downloads that agree on the candles up to `k` and on the context closed by then. */
  ghost predicate SameRowsUntil(rows: seq<Row>, context: seq<Row>, rows': seq<Row>, context': seq<Row>, k: nat) {
    && |rows| == |rows'| && k < |rows| && rows[..k + 1] == rows'[..k + 1]
    && var cutoff := rows[k].closeTime;
       context[..Closed(context, cutoff)] == context'[..Closed(context', cutoff)]
  }

  lemma ContextClosedBy(p: Periods, context: seq<Row>, cutoff: int)
    requires Valid(p) && RowsInOrder(context)
    ensures ClosedBy(EnrichedContext(p, context), cutoff) == EnrichedContext(p, context[..Closed(context, cutoff)])
  {
    var n := Closed(context, cutoff);
    ClosedByIsPrefix(EnrichedContext(p, context), cutoff, n);
    EnrichedContextPrefix(p, context, n);
  }

  /** No look-ahead from the downloaded rows on: prices after candle `k`, and context that had not
      closed by then, change neither a decision up to `k` nor a trade that has ended by `k`, although
      every indicator column was computed over the whole frame beforehand. */
  lemma NoLookAheadOnRows(cfg: Config, p: Periods, rows: seq<Row>, context: seq<Row>,
                          rows': seq<Row>, context': seq<Row>, k: nat)
    requires Valid(p) && SameRowsUntil(rows, context, rows', context', k)
    requires RowsInOrder(rows) && RowsInOrder(context) && RowsInOrder(context')
    ensures AgreeBy(OpenedBy(Trades(cfg, Enriched(p, rows), EnrichedContext(p, context)), k),
                    OpenedBy(Trades(cfg, Enriched(p, rows'), EnrichedContext(p, context')), k), k)
  {
    var df, df' := Enriched(p, rows), Enriched(p, rows');
    EnrichedPrefix(p, rows, k + 1);
    EnrichedPrefix(p, rows', k + 1);
    assert df[..k + 1] == df'[..k + 1];
    forall j | 0 <= j <= k ensures df[j] == df'[j] {
      assert df[..k + 1][j] == df'[..k + 1][j];
    }
    ContextClosedBy(p, context, rows[k].closeTime);
    ContextClosedBy(p, context', rows[k].closeTime);
    NoLookAhead(cfg, df, EnrichedContext(p, context), df', EnrichedContext(p, context'), k);
  }
}
