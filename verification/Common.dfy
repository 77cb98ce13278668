// Small vocabulary shared by the models of the trading bot.
module Common {

  datatype Option<+T> = None | Some(value: T)

  datatype Side = Buy | Sell

  /** One candle as the exchange reports it. */
  datatype Kline = Kline(openTime: int, open: real, high: real, low: real, close: real, volume: real, closeTime: int)

  /** Strictly increasing open times. */
  ghost predicate Increasing(rows: seq<Kline>) {
    forall i, j :: 0 <= i < j < |rows| ==> rows[i].openTime < rows[j].openTime
  }

  function MaxInt(a: int, b: int): int {
    if a < b then b else a
  }

  function MinInt(a: int, b: int): int {
    if a < b then a else b
  }

  function MaxReal(a: real, b: real): real {
    if a < b then b else a
  }

  function MinReal(a: real, b: real): real {
    if b < a then b else a
  }

  function AbsReal(a: real): real {
    if a < 0.0 then -a else a
  }

  lemma ScaleLess(a: real, b: real, step: real)
    requires step > 0.0
    ensures a <= b <==> a * step <= b * step
  {
    if a <= b {
      assert 0.0 <= (b - a) * step;
    } else {
      assert 0.0 < (a - b) * step;
    }
  }

  lemma PrefixIncreasing(rows: seq<Kline>, k: nat)
    requires Increasing(rows) && k <= |rows|
    ensures Increasing(rows[..k])
  {
  }

  lemma SuffixIncreasing(rows: seq<Kline>, k: nat)
    requires Increasing(rows) && k <= |rows|
    ensures Increasing(rows[k..])
  {
  }

  lemma LastIsNewest(rows: seq<Kline>)
    requires Increasing(rows) && rows != []
    ensures forall r :: r in rows[..|rows| - 1] ==> r.openTime < rows[|rows| - 1].openTime
  {
  }
}
