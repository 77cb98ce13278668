/** The bounded in-memory candle series of one symbol and interval (data_stream.py, lines 123-124
    and 197-218) and the fingerprint the indicator cache takes of it
    (services/signal_service.py, `_df_snapshot_token`). */
module CandleSeries {
  import opened Common

  /** `deque(maxlen)`: appending to a full deque drops its first element. */
  function Push(maxlen: nat, series: seq<Kline>, row: Kline): seq<Kline> {
    var longer := series + [row];
    if |longer| > maxlen then longer[1..] else longer
  }

  /** One polled row: it replaces the last row when the open times match, else it is appended. */
  function Absorb(maxlen: nat, series: seq<Kline>, row: Kline): seq<Kline> {
    if series != [] && series[|series| - 1].openTime == row.openTime
    then series[|series| - 1 := row]
    else Push(maxlen, series, row)
  }

  /** Whether absorbing `row` marks the snapshot cache dirty. */
  predicate Touched(series: seq<Kline>, row: Kline) {
    series == [] || series[|series| - 1] != row
  }

  function AbsorbAll(maxlen: nat, series: seq<Kline>, page: seq<Kline>): seq<Kline>
    decreases |page|
  {
    if page == [] then series else AbsorbAll(maxlen, Absorb(maxlen, series, page[0]), page[1..])
  }

  function AnyTouched(maxlen: nat, series: seq<Kline>, page: seq<Kline>): bool
    decreases |page|
  {
    page != [] && (Touched(series, page[0]) || AnyTouched(maxlen, Absorb(maxlen, series, page[0]), page[1..]))
  }

  /** `clear` and `extend`: only the newest `maxlen` rows stay. */
  function Loaded(maxlen: nat, rows: seq<Kline>): seq<Kline> {
    if |rows| > maxlen then rows[|rows| - maxlen..] else rows
  }

  /** A page fits in order when it increases and starts no earlier than the last stored row. */
  ghost predicate InOrder(series: seq<Kline>, page: seq<Kline>) {
    Increasing(page) && (series == [] || page == [] || series[|series| - 1].openTime <= page[0].openTime)
  }

  lemma {:induction false} UntouchedIsSame(maxlen: nat, series: seq<Kline>, page: seq<Kline>)
    requires !AnyTouched(maxlen, series, page)
    ensures AbsorbAll(maxlen, series, page) == series
    decreases |page|
  {
    if page != [] {
      assert Absorb(maxlen, series, page[0]) == series;
      UntouchedIsSame(maxlen, series, page[1..]);
    }
  }

  /** Whatever is polled, the series never outgrows its bound. */
  lemma {:induction false} LengthBounded(maxlen: nat, series: seq<Kline>, page: seq<Kline>)
    requires |series| <= maxlen
    ensures |AbsorbAll(maxlen, series, page)| <= maxlen
    decreases |page|
  {
    if page != [] {
      LengthBounded(maxlen, Absorb(maxlen, series, page[0]), page[1..]);
    }
  }

  // ---- Order ------------------------------------------------------------------------------

  lemma AbsorbKeepsOrder(maxlen: nat, series: seq<Kline>, row: Kline)
    requires Increasing(series) && |series| <= maxlen
    requires series != [] ==> series[|series| - 1].openTime <= row.openTime
    ensures var s := Absorb(maxlen, series, row);
      Increasing(s) && (s != [] ==> s[|s| - 1] == row)
  {
  }

  lemma {:induction false} InOrderKeepsOrder(maxlen: nat, series: seq<Kline>, page: seq<Kline>)
    requires Increasing(series) && |series| <= maxlen && InOrder(series, page)
    ensures Increasing(AbsorbAll(maxlen, series, page))
    decreases |page|
  {
    if page != [] {
      AbsorbKeepsOrder(maxlen, series, page[0]);
      InOrderKeepsOrder(maxlen, Absorb(maxlen, series, page[0]), page[1..]);
    }
  }

  lemma LoadedTwice(maxlen: nat, a: seq<Kline>, b: seq<Kline>)
    ensures Loaded(maxlen, Loaded(maxlen, a) + b) == Loaded(maxlen, a + b)
  {
  }

  lemma AppendIsLoaded(maxlen: nat, series: seq<Kline>, row: Kline)
    requires 0 < maxlen && |series| <= maxlen
    requires series != [] ==> row.openTime != series[|series| - 1].openTime
    ensures var s := Absorb(maxlen, series, row);
      s == Loaded(maxlen, series + [row]) && 0 < |s| <= maxlen && s[|s| - 1] == row
  {
  }

  /** No two neighbouring rows share their open time. */
  ghost predicate Distinct(page: seq<Kline>) {
    forall i, j :: 0 <= i < j < |page| && j == i + 1 ==> page[i].openTime != page[j].openTime
  }

  lemma TailDistinct(page: seq<Kline>)
    requires Distinct(page) && page != []
    ensures Distinct(page[1..])
    ensures |page| > 1 ==> page[1..][0].openTime != page[0].openTime
  {
  }

  lemma Regroup(series: seq<Kline>, page: seq<Kline>)
    requires page != []
    ensures (series + [page[0]]) + page[1..] == series + page
  {
  }

  /** A page that starts behind the last row is appended whole. */
  lemma {:induction false} LatePageIsAppended(maxlen: nat, series: seq<Kline>, page: seq<Kline>)
    requires Distinct(page) && 0 < maxlen && |series| <= maxlen
    requires page != [] && series != [] ==> page[0].openTime != series[|series| - 1].openTime
    ensures AbsorbAll(maxlen, series, page) == Loaded(maxlen, series + page)
    decreases |page|
  {
    if page == [] {
      assert series + page == series;
    } else {
      var head, rest := [page[0]], page[1..];
      TailDistinct(page);
      AppendIsLoaded(maxlen, series, page[0]);
      LatePageIsAppended(maxlen, Absorb(maxlen, series, page[0]), rest);
      LoadedTwice(maxlen, series + head, rest);
      Regroup(series, page);
    }
  }

  /** Where the old rows meet the page. */
  lemma Seam(maxlen: nat, series: seq<Kline>, page: seq<Kline>)
    requires series != [] && page != [] && |page| < maxlen
    ensures var s := Loaded(maxlen, series + page);
      |s| > |page| && s[|s| - |page| - 1] == series[|series| - 1] && s[|s| - |page|] == page[0]
  {
  }

  lemma StepsBack(s: seq<Kline>, k: nat)
    requires 0 < k < |s| && s[k - 1].openTime > s[k].openTime
    ensures !Increasing(s)
  {
  }

  lemma IncreasingIsDistinct(page: seq<Kline>)
    requires Increasing(page)
    ensures Distinct(page)
  {
  }

  lemma OutOfOrderBreaks(maxlen: nat, series: seq<Kline>, page: seq<Kline>)
    requires |series| <= maxlen && Distinct(page) && |page| < maxlen
    requires series != [] && page != [] && series[|series| - 1].openTime > page[0].openTime
    ensures !Increasing(AbsorbAll(maxlen, series, page))
  {
    LatePageIsAppended(maxlen, series, page);
    Seam(maxlen, series, page);
    var s := AbsorbAll(maxlen, series, page);
    StepsBack(s, |s| - |page|);
  }

  /** The stored order survives a page exactly when the page fits in order. */
  lemma OrderSurvivesIffInOrder(maxlen: nat, series: seq<Kline>, page: seq<Kline>)
    requires Increasing(series) && |series| <= maxlen && Increasing(page) && |page| < maxlen
    ensures Increasing(AbsorbAll(maxlen, series, page)) <==> InOrder(series, page)
  {
    if InOrder(series, page) {
      InOrderKeepsOrder(maxlen, series, page);
    } else {
      IncreasingIsDistinct(page);
      OutOfOrderBreaks(maxlen, series, page);
    }
  }

  // ---- Fingerprints -----------------------------------------------------------------------

  /** Length and last row; None for an empty frame. */
  function Token(frame: seq<Kline>): Option<(nat, Kline)> {
    if frame == [] then None else Some((|frame|, frame[|frame| - 1]))
  }

  /** The series after a run of polls. */
  function SeriesAfter(maxlen: nat, series: seq<Kline>, pages: seq<seq<Kline>>): seq<Kline>
    decreases |pages|
  {
    if pages == [] then series else SeriesAfter(maxlen, AbsorbAll(maxlen, series, pages[0]), pages[1..])
  }

  /** The page ends at a newer candle than the last stored one, whatever it starts with. */
  predicate EndsNewer(series: seq<Kline>, page: seq<Kline>) {
    page != [] && series != [] && page[|page| - 1].openTime > series[|series| - 1].openTime
  }

  /** The page fits in order, or it ends at a newer candle: what a poll brings that repeats the rows
      before a new candle. */
  ghost predicate Advances(series: seq<Kline>, page: seq<Kline>) {
    InOrder(series, page) || EndsNewer(series, page)
  }

  ghost predicate AllAdvance(maxlen: nat, series: seq<Kline>, pages: seq<seq<Kline>>)
    decreases |pages|
  {
    pages == [] ||
    (Advances(series, pages[0]) && AllAdvance(maxlen, AbsorbAll(maxlen, series, pages[0]), pages[1..]))
  }

  /** `later` can only differ from `earlier` by having moved on to a newer last candle, or by a
      revision of the same last candle. */
  ghost predicate MovedOn(earlier: seq<Kline>, later: seq<Kline>) {
    earlier != [] ==>
      && later != []
      && var a, b := earlier[|earlier| - 1], later[|later| - 1];
         a.openTime < b.openTime ||
         (a.openTime == b.openTime && |later| == |earlier| && later[..|later| - 1] == earlier[..|earlier| - 1])
  }

  lemma {:induction false} PageMovesOn(maxlen: nat, series: seq<Kline>, page: seq<Kline>)
    requires |series| <= maxlen && InOrder(series, page)
    ensures MovedOn(series, AbsorbAll(maxlen, series, page))
    decreases |page|
  {
    if page != [] && series != [] {
      var s := Absorb(maxlen, series, page[0]);
      assert MovedOn(series, s);
      PageMovesOn(maxlen, s, page[1..]);
    }
  }

  lemma {:induction false} PageEndStays(maxlen: nat, series: seq<Kline>, page: seq<Kline>)
    requires 0 < maxlen && page != []
    ensures var after := AbsorbAll(maxlen, series, page);
      after != [] && after[|after| - 1] == page[|page| - 1]
    decreases |page|
  {
    var s := Absorb(maxlen, series, page[0]);
    assert s != [] && s[|s| - 1] == page[0];
    if |page| > 1 {
      PageEndStays(maxlen, s, page[1..]);
    } else {
      assert page[1..] == [];
    }
  }

  lemma AdvanceMovesOn(maxlen: nat, series: seq<Kline>, page: seq<Kline>)
    requires |series| <= maxlen && Advances(series, page)
    ensures MovedOn(series, AbsorbAll(maxlen, series, page))
  {
    if InOrder(series, page) {
      PageMovesOn(maxlen, series, page);
    } else {
      PageEndStays(maxlen, series, page);
    }
  }

  lemma {:induction false} RunMovesOn(maxlen: nat, series: seq<Kline>, pages: seq<seq<Kline>>)
    requires |series| <= maxlen && AllAdvance(maxlen, series, pages)
    ensures MovedOn(series, SeriesAfter(maxlen, series, pages))
    decreases |pages|
  {
    if pages != [] {
      AdvanceMovesOn(maxlen, series, pages[0]);
      LengthBounded(maxlen, series, pages[0]);
      RunMovesOn(maxlen, AbsorbAll(maxlen, series, pages[0]), pages[1..]);
    }
  }

  lemma {:induction false} RunSplits(maxlen: nat, series: seq<Kline>, pages: seq<seq<Kline>>, k: nat)
    requires k <= |pages| && AllAdvance(maxlen, series, pages) && |series| <= maxlen
    ensures var mid := SeriesAfter(maxlen, series, pages[..k]);
      && |mid| <= maxlen
      && AllAdvance(maxlen, mid, pages[k..])
      && SeriesAfter(maxlen, mid, pages[k..]) == SeriesAfter(maxlen, series, pages)
    decreases |pages|
  {
    if k == 0 {
      assert pages[0..] == pages;
    } else {
      LengthBounded(maxlen, series, pages[0]);
      RunSplits(maxlen, AbsorbAll(maxlen, series, pages[0]), pages[1..], k - 1);
      assert pages[..k][1..] == pages[1..][..k - 1] && pages[1..][k - 1..] == pages[k..];
    }
  }

  lemma {:induction false} PrefixAdvances(maxlen: nat, series: seq<Kline>, pages: seq<seq<Kline>>, k: nat)
    requires k <= |pages| && AllAdvance(maxlen, series, pages)
    ensures AllAdvance(maxlen, series, pages[..k])
    decreases |pages|
  {
    if k > 0 {
      PrefixAdvances(maxlen, AbsorbAll(maxlen, series, pages[0]), pages[1..], k - 1);
      assert pages[..k][1..] == pages[1..][..k - 1];
    }
  }

  /** Along a run whose pages come in order or bring a newer candle, two frames with the same
      fingerprint are the same frame, even after the bounded series has slid and whatever rows were
      stored twice. */
  lemma FingerprintIsFaithful(maxlen: nat, series: seq<Kline>, pages: seq<seq<Kline>>, a: nat, b: nat)
    requires a <= b <= |pages| && |series| <= maxlen && AllAdvance(maxlen, series, pages)
    requires Token(SeriesAfter(maxlen, series, pages[..a])) == Token(SeriesAfter(maxlen, series, pages[..b]))
    ensures SeriesAfter(maxlen, series, pages[..a]) == SeriesAfter(maxlen, series, pages[..b])
  {
    var early, late := SeriesAfter(maxlen, series, pages[..a]), SeriesAfter(maxlen, series, pages[..b]);
    PrefixAdvances(maxlen, series, pages, b);
    RunSplits(maxlen, series, pages[..b], a);
    assert pages[..b][..a] == pages[..a];
    RunMovesOn(maxlen, early, pages[..b][a..]);
    if early != [] {
      assert early == early[..|early| - 1] + [early[|early| - 1]];
      assert late == late[..|late| - 1] + [late[|late| - 1]];
    }
  }

  // ---- Exactly when one poll fools the fingerprint ----------------------------------------

  /** The frame changed and its fingerprint did not. */
  ghost predicate Fooled(maxlen: nat, series: seq<Kline>, page: seq<Kline>) {
    Token(AbsorbAll(maxlen, series, page)) == Token(series) && AbsorbAll(maxlen, series, page) != series
  }

  /** The series, with the page behind it, already repeats with the page's length as its period. */
  ghost predicate Repeats(series: seq<Kline>, page: seq<Kline>) {
    forall i :: 0 <= i < |series| ==> (series + page)[i + |page|] == series[i]
  }

  lemma AdvanceNeverFools(maxlen: nat, series: seq<Kline>, page: seq<Kline>)
    requires series != [] && |series| <= maxlen && Advances(series, page)
    ensures !Fooled(maxlen, series, page)
  {
    var after := AbsorbAll(maxlen, series, page);
    AdvanceMovesOn(maxlen, series, page);
    if Token(after) == Token(series) {
      assert after == after[..|after| - 1] + [after[|after| - 1]];
      assert series == series[..|series| - 1] + [series[|series| - 1]];
    }
  }

  lemma LoadedEnd(maxlen: nat, series: seq<Kline>, page: seq<Kline>)
    requires 0 < |series| <= maxlen && page != []
    ensures var after := Loaded(maxlen, series + page);
      && after[|after| - 1] == page[|page| - 1]
      && (|after| == |series| <==> |series| == maxlen)
  {
  }

  /** A full series that takes in a whole page stays the same exactly when it repeats with it. */
  lemma SameIffRepeats(series: seq<Kline>, page: seq<Kline>)
    ensures Loaded(|series|, series + page) == series <==> Repeats(series, page)
  {
    var both := series + page;
    if Repeats(series, page) {
      assert both[|page|..] == series;
    } else {
      var i :| 0 <= i < |series| && both[i + |page|] != series[i];
      assert both[|page|..][i] == both[i + |page|];
    }
  }

  /** For any stored series, also one that earlier polls have left out of order: one poll fools the
      fingerprint exactly when the page starts before the last stored row, the series is full, both
      end with the same row, and the series does not already repeat with the page's period. */
  lemma FingerprintFooledIff(maxlen: nat, series: seq<Kline>, page: seq<Kline>)
    requires series != [] && page != [] && |series| <= maxlen && Increasing(page)
    ensures Fooled(maxlen, series, page) <==>
      && !InOrder(series, page) && |series| == maxlen
      && page[|page| - 1] == series[|series| - 1] && !Repeats(series, page)
  {
    if InOrder(series, page) {
      AdvanceNeverFools(maxlen, series, page);
    } else {
      LatePageIsAppended(maxlen, series, page);
      LoadedEnd(maxlen, series, page);
      if |series| == maxlen {
        SameIffRepeats(series, page);
      }
    }
  }

  lemma OrderedDoesNotRepeat(series: seq<Kline>, page: seq<Kline>)
    requires Increasing(series) && 0 < |page| < |series|
    ensures !Repeats(series, page)
  {
    assert (series + page)[0 + |page|] == series[|page|];
    assert series[0].openTime < series[|page|].openTime;
  }

  lemma Slides(series: seq<Kline>, page: seq<Kline>)
    requires |page| <= |series|
    ensures Loaded(|series|, series + page) == series[|page|..] + page
  {
  }

  /** Polling does produce it: when a full series in order is polled again for its last few rows (at
      least two; the default page is three) and no new candle has closed, the rows are appended a
      second time. */
  lemma RepeatedPageKeepsFingerprint(series: seq<Kline>, page: seq<Kline>)
    requires Increasing(series) && Increasing(page) && 2 <= |page| < |series|
    requires page[|page| - 1] == series[|series| - 1]
    ensures AbsorbAll(|series|, series, page) == series[|page|..] + page
    ensures Fooled(|series|, series, page)
  {
    assert page[0].openTime < page[|page| - 1].openTime;
    OrderedDoesNotRepeat(series, page);
    FingerprintFooledIff(|series|, series, page);
    LatePageIsAppended(|series|, series, page);
    Slides(series, page);
  }

  /** Polled twice in a row it does not: the second time the series already repeats. */
  lemma SecondRepeatIsHarmless(a: Kline, b: Kline)
    requires a.openTime < b.openTime
    ensures !Fooled(4, [a, b, a, b], [a, b])
  {
    var series, page := [a, b, a, b], [a, b];
    assert series + page == [a, b, a, b, a, b];
    FingerprintFooledIff(4, series, page);
  }
}
