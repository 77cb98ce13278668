/** The two caches together: frames handed out by the market feed while it is polled, given to the
    indicator cache by any number of threads. */
module CachePipeline {
  import opened Common
  import opened CandleSeries
  import MarketFeed
  import opened IndicatorCache

  /** A poll comes in order or brings a newer candle, and a load only fills an empty series. */
  ghost predicate StepAdvances(w: MarketFeed.World, step: MarketFeed.Step) {
    match step
    case Poll(page) => Advances(w.feed.series, page)
    case Load(rows) => Increasing(rows) && (rows != [] ==> w.feed.series == [])
    case _ => true
  }

  ghost predicate PolledForward(maxlen: nat, w: MarketFeed.World, steps: seq<MarketFeed.Step>)
    requires MarketFeed.Run(maxlen, w, steps)
    decreases |steps|
  {
    steps == [] ||
    (StepAdvances(w, steps[0]) && PolledForward(maxlen, MarketFeed.Next(maxlen, w, steps[0]), steps[1..]))
  }

  /** The page of a step, if it brings one; a load onto an empty series does. */
  function PageOf(step: MarketFeed.Step): seq<seq<Kline>> {
    match step
    case Poll(page) => [page]
    case Load(rows) => [rows]
    case _ => []
  }

  function Pages(steps: seq<MarketFeed.Step>): seq<seq<Kline>>
    decreases |steps|
  {
    if steps == [] then [] else PageOf(steps[0]) + Pages(steps[1..])
  }

  lemma LoadIsPoll(maxlen: nat, series: Frame, rows: seq<Kline>)
    requires maxlen > 0 && |series| <= maxlen && Increasing(rows) && (rows != [] ==> series == [])
    ensures InOrder(series, rows)
    ensures AbsorbAll(maxlen, series, rows) == if rows == [] then series else Loaded(maxlen, rows)
  {
    if rows != [] {
      LatePageIsAppended(maxlen, series, rows);
      assert series + rows == rows;
    }
  }

  /** Everything the feed holds or has held is a value of the series along `pages`. */
  ghost predicate Tracks(maxlen: nat, w: MarketFeed.World, pages: seq<seq<Kline>>) {
    && |w.feed.series| <= maxlen
    && AllAdvance(maxlen, [], pages) && w.feed.series == SeriesAfter(maxlen, [], pages)
    && (w.feed.cached.Some? ==> IsSnapshot(maxlen, [], pages, w.feed.cached.value))
    && forall r :: r in w.readers ==> IsSnapshot(maxlen, [], pages, w.readers[r])
  }

  lemma {:induction false} AppendPage(maxlen: nat, series: Frame, pages: seq<seq<Kline>>, page: seq<Kline>)
    requires AllAdvance(maxlen, series, pages) && Advances(SeriesAfter(maxlen, series, pages), page)
    ensures AllAdvance(maxlen, series, pages + [page])
    ensures SeriesAfter(maxlen, series, pages + [page]) == AbsorbAll(maxlen, SeriesAfter(maxlen, series, pages), page)
    decreases |pages|
  {
    if pages == [] {
      assert [page][1..] == [];
    } else {
      AppendPage(maxlen, AbsorbAll(maxlen, series, pages[0]), pages[1..], page);
      assert (pages + [page])[1..] == pages[1..] + [page];
    }
  }

  lemma SnapshotStays(maxlen: nat, pages: seq<seq<Kline>>, more: seq<seq<Kline>>, frame: Frame)
    requires IsSnapshot(maxlen, [], pages, frame)
    ensures IsSnapshot(maxlen, [], pages + more, frame)
  {
    var k: nat :| k <= |pages| && frame == SeriesAfter(maxlen, [], pages[..k]);
    assert (pages + more)[..k] == pages[..k];
  }

  lemma SeriesIsSnapshot(maxlen: nat, pages: seq<seq<Kline>>)
    ensures IsSnapshot(maxlen, [], pages, SeriesAfter(maxlen, [], pages))
  {
    assert pages[..|pages|] == pages;
  }

  /** A page that advances the series is tracked. */
  lemma PageIsTracked(maxlen: nat, w: MarketFeed.World, pages: seq<seq<Kline>>, page: seq<Kline>,
                      next: MarketFeed.World)
    requires Tracks(maxlen, w, pages) && Advances(w.feed.series, page)
    requires next.feed.series == AbsorbAll(maxlen, w.feed.series, page)
    requires next.feed.cached == w.feed.cached && next.readers == w.readers
    ensures Tracks(maxlen, next, pages + [page])
  {
    AppendPage(maxlen, [], pages, page);
    LengthBounded(maxlen, w.feed.series, page);
    if w.feed.cached.Some? { SnapshotStays(maxlen, pages, [page], w.feed.cached.value); }
    forall r | r in w.readers ensures IsSnapshot(maxlen, [], pages + [page], w.readers[r]) {
      SnapshotStays(maxlen, pages, [page], w.readers[r]);
    }
  }

  lemma StepIsTracked(maxlen: nat, w: MarketFeed.World, pages: seq<seq<Kline>>, step: MarketFeed.Step)
    requires maxlen > 0 && Tracks(maxlen, w, pages) && MarketFeed.Possible(w, step)
    requires StepAdvances(w, step)
    ensures Tracks(maxlen, MarketFeed.Next(maxlen, w, step), pages + PageOf(step))
    ensures var answer := MarketFeed.Answer(w, step);
      answer.Some? ==> IsSnapshot(maxlen, [], pages, answer.value)
  {
    var next := MarketFeed.Next(maxlen, w, step);
    match step {
      case Poll(page) =>
        PageIsTracked(maxlen, w, pages, page, next);
      case Load(rows) =>
        LoadIsPoll(maxlen, w.feed.series, rows);
        PageIsTracked(maxlen, w, pages, rows, next);
      case _ =>
        SeriesIsSnapshot(maxlen, pages);
        assert pages + [] == pages;
    }
  }

  function AnswerOf(w: MarketFeed.World, step: MarketFeed.Step): seq<Frame>
    requires MarketFeed.Possible(w, step)
  {
    match MarketFeed.Answer(w, step) case Some(frame) => [frame] case None => []
  }

  /** The frames a run hands out, in order. */
  function Answers(maxlen: nat, w: MarketFeed.World, steps: seq<MarketFeed.Step>): seq<Frame>
    requires MarketFeed.Run(maxlen, w, steps)
    decreases |steps|
  {
    if steps == [] then []
    else AnswerOf(w, steps[0]) + Answers(maxlen, MarketFeed.Next(maxlen, w, steps[0]), steps[1..])
  }

  ghost predicate AllSnapshots(maxlen: nat, pages: seq<seq<Kline>>, frames: seq<Frame>) {
    forall f :: f in frames ==> IsSnapshot(maxlen, [], pages, f)
  }

  lemma HeadAnswer(maxlen: nat, w: MarketFeed.World, pages: seq<seq<Kline>>, step: MarketFeed.Step,
                   more: seq<seq<Kline>>)
    requires maxlen > 0 && Tracks(maxlen, w, pages) && MarketFeed.Possible(w, step) && StepAdvances(w, step)
    ensures AllSnapshots(maxlen, pages + more, AnswerOf(w, step))
    ensures Tracks(maxlen, MarketFeed.Next(maxlen, w, step), pages + PageOf(step))
  {
    StepIsTracked(maxlen, w, pages, step);
    forall f | f in AnswerOf(w, step) ensures IsSnapshot(maxlen, [], pages + more, f) {
      SnapshotStays(maxlen, pages, more, f);
    }
  }

  lemma PagesSplit(pages: seq<seq<Kline>>, steps: seq<MarketFeed.Step>)
    requires steps != []
    ensures pages + Pages(steps) == (pages + PageOf(steps[0])) + Pages(steps[1..])
  {
  }

  lemma JoinSnapshots(maxlen: nat, pages: seq<seq<Kline>>, a: seq<Frame>, b: seq<Frame>)
    requires AllSnapshots(maxlen, pages, a) && AllSnapshots(maxlen, pages, b)
    ensures AllSnapshots(maxlen, pages, a + b)
  {
  }

  lemma {:induction false} AnswersAreSnapshots(maxlen: nat, w: MarketFeed.World, pages: seq<seq<Kline>>,
                                               steps: seq<MarketFeed.Step>)
    requires maxlen > 0 && Tracks(maxlen, w, pages)
    requires MarketFeed.Run(maxlen, w, steps) && PolledForward(maxlen, w, steps)
    ensures AllAdvance(maxlen, [], pages + Pages(steps))
    ensures AllSnapshots(maxlen, pages + Pages(steps), Answers(maxlen, w, steps))
    decreases |steps|
  {
    if steps == [] {
      assert pages + [] == pages;
    } else {
      var step, next, rest := steps[0], MarketFeed.Next(maxlen, w, steps[0]), steps[1..];
      PagesSplit(pages, steps);
      HeadAnswer(maxlen, w, pages, step, Pages(steps));
      AnswersAreSnapshots(maxlen, next, pages + PageOf(step), rest);
      JoinSnapshots(maxlen, pages + Pages(steps), AnswerOf(w, step), Answers(maxlen, next, rest));
    }
  }

  /** Both caches together: as long as every poll comes in order or brings a newer candle (as the polls
      scheduled at candle closes do, although they repeat older rows), a thread that is handed a frame by the
      feed, however stale, and hits the indicator cache with it gets exactly the indicators of
      that frame, whatever polls, readers and other threads do in between. */
  lemma CachedIndicatorsAreExact<K(!new), E>(capacity: nat, compute: (K, Frame) -> E, stores: seq<Store<K>>,
                                             maxlen: nat, steps: seq<MarketFeed.Step>, key: K, frame: Frame)
    requires maxlen > 0
    requires MarketFeed.Run(maxlen, MarketFeed.Empty(), steps) && PolledForward(maxlen, MarketFeed.Empty(), steps)
    requires frame in Answers(maxlen, MarketFeed.Empty(), steps)
    requires forall s :: s in stores && s.key == key ==> s.frame in Answers(maxlen, MarketFeed.Empty(), steps)
    ensures var hit := Lookup(TableAfter(capacity, compute, stores), key, frame);
      hit.Some? ==> hit.value == compute(key, frame)
  {
    var pages := Pages(steps);
    assert [] + pages == pages;
    assert Tracks(maxlen, MarketFeed.Empty(), []);
    AnswersAreSnapshots(maxlen, MarketFeed.Empty(), [], steps);
    HitsAreExact(capacity, compute, stores, maxlen, [], pages, key, frame);
  }
}
