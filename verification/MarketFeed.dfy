/** The snapshot cache of one symbol and interval (data_stream.py, `_load_initial_one`,
    `_fetch_and_update`, `get_dataframe`).  `get_dataframe` takes its lock twice, so polls and
    other readers can run between its two critical sections. */
module MarketFeed {
  import opened Common
  import opened CandleSeries

  type Frame = seq<Kline>
  type ReaderId = nat

  /** What the lock protects. */
  datatype Feed = Feed(series: Frame, cached: Option<Frame>, dirty: bool)

  function Polled(maxlen: nat, f: Feed, page: seq<Kline>): Feed {
    f.(series := AbsorbAll(maxlen, f.series, page), dirty := f.dirty || AnyTouched(maxlen, f.series, page))
  }

  function Reloaded(maxlen: nat, f: Feed, rows: seq<Kline>): Feed {
    if rows == [] then f else f.(series := Loaded(maxlen, rows), dirty := true)
  }

  /** First critical section: a clean snapshot is the answer. */
  function QuickAnswer(f: Feed): Option<Frame> {
    if f.dirty then None else f.cached
  }

  /** Second critical section: store the copy taken in the first one. */
  function Stored(f: Feed, copy: Frame): Feed {
    f.(cached := if copy == [] then None else Some(copy), dirty := false)
  }

  class MarketDataStream {
    const maxlen: nat
    var series: Frame
    var cached: Option<Frame>
    var dirty: bool

    function State(): Feed
      reads this
    {
      Feed(series, cached, dirty)
    }

    constructor (maxlen: nat)
      ensures this.maxlen == maxlen && State() == Feed([], None, false)
    {
      this.maxlen := maxlen;
      series, cached, dirty := [], None, false;
    }

    method LoadInitial(rows: seq<Kline>)
      modifies this
      ensures State() == Reloaded(maxlen, old(State()), rows)
    {
      if rows == [] {
        return;
      }
      series := [];
      for k := 0 to |rows|
        invariant series == Loaded(maxlen, rows[..k])
        invariant cached == old(cached)
      {
        assert rows[..k + 1] == rows[..k] + [rows[k]];
        series := Push(maxlen, series, rows[k]);
      }
      assert rows[..|rows|] == rows;
      dirty := true;
    }

    method FetchAndUpdate(page: seq<Kline>)
      modifies this
      ensures State() == Polled(maxlen, old(State()), page)
    {
      for k := 0 to |page|
        invariant cached == old(cached)
        invariant AbsorbAll(maxlen, series, page[k..]) == AbsorbAll(maxlen, old(series), page)
        invariant (dirty || AnyTouched(maxlen, series, page[k..])) ==
                  (old(dirty) || AnyTouched(maxlen, old(series), page))
      {
        var row := page[k];
        ghost var before := series;
        assert page[k..][0] == row && page[k..][1..] == page[k + 1..];
        if series != [] && series[|series| - 1].openTime == row.openTime {
          if series[|series| - 1] != row {
            series := series[|series| - 1 := row];
            dirty := true;
          }
        } else {
          series := Push(maxlen, series, row);
          dirty := true;
        }
        assert series == Absorb(maxlen, before, row);
      }
    }

    method ReadBegin() returns (answer: Option<Frame>, copy: Frame)
      ensures answer == QuickAnswer(State())
      ensures copy == series
    {
      answer := if cached.Some? && !dirty then cached else None;
      copy := series;
    }

    method ReadEnd(copy: Frame) returns (answer: Frame)
      modifies this
      ensures State() == Stored(old(State()), copy)
      ensures answer == copy
    {
      if copy == [] {
        cached, dirty := None, false;
        return [];
      }
      cached, dirty := Some(copy), false;
      answer := copy;
    }
  }

  // ---- Runs -------------------------------------------------------------------------------

  /** The feed with the readers that are between their two sections, and, as history, every
      value the series has had. */
  datatype World = World(feed: Feed, readers: map<ReaderId, Frame>, past: seq<Frame>)

  datatype Step =
    | Poll(page: seq<Kline>)
    | Load(rows: seq<Kline>)
    | Begin(r: ReaderId)
    | End(r: ReaderId)

  predicate Possible(w: World, step: Step) {
    match step
    case Begin(r) => r !in w.readers
    case End(r) => r in w.readers
    case _ => true
  }

  function WithFeed(w: World, feed: Feed): World {
    World(feed, w.readers, w.past + [feed.series])
  }

  function Next(maxlen: nat, w: World, step: Step): World
    requires Possible(w, step)
  {
    match step
    case Poll(page) => WithFeed(w, Polled(maxlen, w.feed, page))
    case Load(rows) => WithFeed(w, Reloaded(maxlen, w.feed, rows))
    case Begin(r) =>
      if QuickAnswer(w.feed).Some? then w else w.(readers := w.readers[r := w.feed.series])
    case End(r) => w.(feed := Stored(w.feed, w.readers[r]), readers := w.readers - {r})
  }

  /** The frame a step hands to its caller, if any. */
  function Answer(w: World, step: Step): Option<Frame>
    requires Possible(w, step)
  {
    match step
    case Begin(_) => QuickAnswer(w.feed)
    case End(r) => Some(w.readers[r])
    case _ => None
  }

  predicate Run(maxlen: nat, w: World, steps: seq<Step>)
    decreases |steps|
  {
    steps == [] || (Possible(w, steps[0]) && Run(maxlen, Next(maxlen, w, steps[0]), steps[1..]))
  }

  function After(maxlen: nat, w: World, steps: seq<Step>): World
    requires Run(maxlen, w, steps)
    decreases |steps|
  {
    if steps == [] then w else After(maxlen, Next(maxlen, w, steps[0]), steps[1..])
  }

  function Empty(): World {
    World(Feed([], None, false), map[], [[]])
  }

  /** A read is answered at once exactly when a clean snapshot is there; otherwise it copies the series
      and answers with that copy in its second section. */
  lemma ReadInPlainTerms(maxlen: nat, w: World, r: ReaderId)
    requires Possible(w, Begin(r))
    ensures var next := Next(maxlen, w, Begin(r));
      && (Answer(w, Begin(r)).Some? <==> !w.feed.dirty && w.feed.cached.Some?)
      && (Answer(w, Begin(r)).Some? ==> Answer(w, Begin(r)) == w.feed.cached && next == w)
      && (Answer(w, Begin(r)).None? ==>
            && next.feed == w.feed && r in next.readers
            && Answer(next, End(r)) == Some(w.feed.series))
  {
  }

  /** After an undisturbed read of a series with rows the next one is answered at once, with the same
      frame; of an empty series nothing is kept. */
  lemma ReadAgainIsQuick(maxlen: nat, w: World, r: ReaderId, q: ReaderId)
    requires Possible(w, Begin(r)) && Answer(w, Begin(r)).None?
    ensures var next := Next(maxlen, Next(maxlen, w, Begin(r)), End(r));
      && next.feed.series == w.feed.series && !next.feed.dirty && next.readers == w.readers
      && (q !in w.readers ==>
            Answer(next, Begin(q)) == if w.feed.series == [] then None else Some(w.feed.series))
  {
    var mid := Next(maxlen, w, Begin(r));
    assert mid.readers - {r} == w.readers;
  }

  /** Nothing is ever torn or invented: what is cached or about to be stored was the series. */
  ghost predicate Genuine(maxlen: nat, w: World) {
    && |w.feed.series| <= maxlen
    && w.feed.series in w.past
    && (w.feed.cached.Some? ==> w.feed.cached.value in w.past)
    && forall r :: r in w.readers ==> w.readers[r] in w.past
  }

  lemma StepKeepsGenuine(maxlen: nat, w: World, step: Step)
    requires Genuine(maxlen, w) && Possible(w, step)
    ensures Genuine(maxlen, Next(maxlen, w, step))
  {
    var next := Next(maxlen, w, step);
    if step.Poll? {
      LengthBounded(maxlen, w.feed.series, step.page);
    }
    assert forall f :: f in w.past ==> f in next.past;
    assert next.past != w.past ==> next.past[|next.past| - 1] == next.feed.series;
  }

  lemma {:induction false} RunKeepsGenuine(maxlen: nat, w: World, steps: seq<Step>)
    requires Genuine(maxlen, w) && Run(maxlen, w, steps)
    ensures Genuine(maxlen, After(maxlen, w, steps))
    decreases |steps|
  {
    if steps != [] {
      StepKeepsGenuine(maxlen, w, steps[0]);
      RunKeepsGenuine(maxlen, Next(maxlen, w, steps[0]), steps[1..]);
    }
  }

  /** Under any interleaving every frame handed out is a value the series really had, and the
      series never exceeds its bound. */
  lemma EveryAnswerIsAPastSeries(maxlen: nat, steps: seq<Step>, step: Step)
    requires Run(maxlen, Empty(), steps) && Possible(After(maxlen, Empty(), steps), step)
    ensures var w := After(maxlen, Empty(), steps);
      && |w.feed.series| <= maxlen
      && (Answer(w, step).Some? ==> Answer(w, step).value in w.past)
  {
    RunKeepsGenuine(maxlen, Empty(), steps);
  }

  /** A snapshot that will be served although the series has moved on. */
  predicate Stale(f: Feed) {
    f.cached.Some? && !f.dirty && f.cached.value != f.series
  }

  /** There is exactly one way to go stale: a reader stores a copy the series has left behind
      between its two sections. */
  lemma StaleOnlyByLateStore(maxlen: nat, w: World, step: Step)
    requires Possible(w, step) && !Stale(w.feed)
    ensures Stale(Next(maxlen, w, step).feed) <==>
      step.End? && w.readers[step.r] != [] && w.readers[step.r] != w.feed.series
  {
    if step.Poll? && !AnyTouched(maxlen, w.feed.series, step.page) {
      UntouchedIsSame(maxlen, w.feed.series, step.page);
    }
  }

  /** No poll or load lands between a reader's sections. */
  predicate Quiet(maxlen: nat, w: World, steps: seq<Step>)
    requires Run(maxlen, w, steps)
    decreases |steps|
  {
    steps == [] ||
    (&& (steps[0].Poll? || steps[0].Load? ==> w.readers == map[])
     && Quiet(maxlen, Next(maxlen, w, steps[0]), steps[1..]))
  }

  ghost predicate Current(w: World) {
    !Stale(w.feed) && forall r :: r in w.readers ==> w.readers[r] == w.feed.series
  }

  lemma {:induction false} QuietRunStaysCurrent(maxlen: nat, w: World, steps: seq<Step>)
    requires Run(maxlen, w, steps) && Quiet(maxlen, w, steps) && Current(w)
    ensures Current(After(maxlen, w, steps))
    decreases |steps|
  {
    if steps != [] {
      StaleOnlyByLateStore(maxlen, w, steps[0]);
      QuietRunStaysCurrent(maxlen, Next(maxlen, w, steps[0]), steps[1..]);
    }
  }

  /** When no update falls between a reader's sections, every frame handed out is the series at
      that moment. */
  lemma QuietAnswersAreCurrent(maxlen: nat, steps: seq<Step>, step: Step)
    requires Run(maxlen, Empty(), steps) && Quiet(maxlen, Empty(), steps)
    requires Possible(After(maxlen, Empty(), steps), step)
    ensures var w := After(maxlen, Empty(), steps);
      Answer(w, step).Some? ==> Answer(w, step).value == w.feed.series
  {
    QuietRunStaysCurrent(maxlen, Empty(), steps);
  }

  /** Otherwise an update can be lost: whenever a poll changes the series while a reader is
      between its sections, that reader's store gives the next reader the old frame as if it
      were clean. */
  lemma UpdateInTheGapIsLost(maxlen: nat, w: World, r: ReaderId, page: seq<Kline>, q: ReaderId)
    requires r in w.readers && w.readers[r] == w.feed.series != []
    requires AbsorbAll(maxlen, w.feed.series, page) != w.feed.series
    requires q !in w.readers
    ensures Run(maxlen, w, [Poll(page), End(r)])
    ensures var after := After(maxlen, w, [Poll(page), End(r)]);
      && Possible(after, Begin(q))
      && Answer(after, Begin(q)) == Some(w.feed.series)
      && w.feed.series != after.feed.series
  {
    var steps := [Poll(page), End(r)];
    assert steps[1..] == [End(r)] && steps[1..][1..] == [];
    var polled := Next(maxlen, w, Poll(page));
    assert Run(maxlen, polled, [End(r)]);
    assert After(maxlen, polled, [End(r)]) == Next(maxlen, polled, End(r));
  }
}
