/** The indicator cache of the signal service (services/signal_service.py,
    `_cached_with_indicators` and `_trim_indicator_cache_locked`).  A key names stream, symbol,
    interval, kind and indicator periods; the computation itself is any function of the key
    and the frame. */
module IndicatorCache {
  import opened Common
  import opened CandleSeries

  type Frame = seq<Kline>

  datatype Entry<E> = Entry(token: Option<(nat, Kline)>, value: E)

  /** The dictionary; `order` is its insertion order, which reassignment does not change. */
  datatype Table<K(==), E> = Table(entries: map<K, Entry<E>>, order: seq<K>)

  function Lookup<K(!new), E>(t: Table<K, E>, key: K, frame: Frame): Option<E> {
    if key in t.entries && t.entries[key].token == Token(frame) then Some(t.entries[key].value) else None
  }

  function Put<K(!new), E>(t: Table<K, E>, key: K, entry: Entry<E>): Table<K, E> {
    Table(t.entries[key := entry], if key in t.entries then t.order else t.order + [key])
  }

  function DropFirst<K(!new), E>(t: Table<K, E>, count: nat): Table<K, E>
    requires count <= |t.order|
    decreases count
  {
    if count == 0 then t
    else DropFirst(Table(t.entries - {t.order[0]}, t.order[1..]), count - 1)
  }

  function Trim<K(!new), E>(t: Table<K, E>, capacity: nat): Table<K, E> {
    if |t.order| <= capacity then t else DropFirst(t, |t.order| - capacity)
  }

  function Stored<K(!new), E>(t: Table<K, E>, capacity: nat, key: K, frame: Frame, value: E): Table<K, E> {
    Trim(Put(t, key, Entry(Token(frame), value)), capacity)
  }

  ghost predicate WellFormed<K(!new), E>(t: Table<K, E>) {
    && (forall k :: k in t.entries <==> k in t.order)
    && (forall i, j :: 0 <= i < j < |t.order| ==> t.order[i] != t.order[j])
  }

  lemma {:induction false} DropFirstKeeps<K(!new), E>(t: Table<K, E>, count: nat)
    requires WellFormed(t) && count <= |t.order|
    ensures var d := DropFirst(t, count);
      && WellFormed(d) && d.order == t.order[count..]
      && (forall k :: k in d.entries ==> k in t.entries && d.entries[k] == t.entries[k])
    decreases count
  {
    if count > 0 {
      var rest := Table(t.entries - {t.order[0]}, t.order[1..]);
      assert t.order == [t.order[0]] + rest.order;
      DropFirstKeeps(rest, count - 1);
    }
  }

  /** Trimming drops the keys inserted first, as many as needed, and keeps every other entry. */
  lemma TrimKeeps<K(!new), E>(t: Table<K, E>, capacity: nat)
    requires WellFormed(t)
    ensures var d := Trim(t, capacity);
      && WellFormed(d) && d.order == t.order[MaxInt(0, |t.order| - capacity)..]
      && (forall k :: k in d.entries ==> k in t.entries && d.entries[k] == t.entries[k])
  {
    if |t.order| > capacity {
      DropFirstKeeps(t, |t.order| - capacity);
    }
  }

  class Cache<K(==, !new), E> {
    const capacity: nat
    const compute: (K, Frame) -> E
    var entries: map<K, Entry<E>>
    var order: seq<K>

    function State(): Table<K, E>
      reads this
    {
      Table(entries, order)
    }

    constructor (capacity: nat, compute: (K, Frame) -> E)
      ensures this.capacity == capacity && this.compute == compute
      ensures State() == Table(map[], []) && WellFormed(State())
    {
      this.capacity, this.compute := capacity, compute;
      entries, order := map[], [];
    }

    method TrimLocked()
      requires WellFormed(State())
      modifies this
      ensures State() == Trim(old(State()), capacity)
    {
      var overflow := |order| - capacity;
      if overflow <= 0 {
        return;
      }
      var keys := order[..overflow];
      for k := 0 to overflow
        invariant 0 <= k <= overflow
        invariant overflow - k <= |order| && keys[k..] == order[..overflow - k]
        invariant DropFirst(State(), overflow - k) == Trim(old(State()), capacity)
      {
        assert keys[k] == order[0];
        entries, order := entries - {keys[k]}, order[1..];
      }
    }

    /** One call; the lock is not held while the indicators are computed, so between the look-up
        and the store other threads may change the table (see `TableAfter` below).  An empty frame is
        handed back as it is: None. */
    method CachedWithIndicators(key: K, frame: Frame) returns (result: Option<E>)
      requires WellFormed(State())
      modifies this
      ensures WellFormed(State())
      ensures result.None? <==> frame == []
      ensures State() == if frame == [] || Lookup(old(State()), key, frame).Some? then old(State())
                         else Stored(old(State()), capacity, key, frame, compute(key, frame))
      ensures frame != [] && Lookup(old(State()), key, frame).Some? ==> result == Lookup(old(State()), key, frame)
      ensures frame != [] && Lookup(old(State()), key, frame).None? ==> result == Some(compute(key, frame))
    {
      if frame == [] {
        return None;
      }
      var token := Token(frame);
      if key in entries && entries[key].token == token {
        return Some(entries[key].value);
      }
      var enriched := compute(key, frame);
      ghost var before := State();
      if key !in entries {
        order := order + [key];
      }
      entries := entries[key := Entry(token, enriched)];
      assert State() == Put(before, key, Entry(token, enriched));
      TrimKeeps(State(), capacity);
      TrimLocked();
      result := Some(enriched);
    }
  }

  lemma PutKeepsWellFormed<K(!new), E>(t: Table<K, E>, key: K, entry: Entry<E>)
    requires WellFormed(t)
    ensures WellFormed(Put(t, key, entry))
  {
  }

  // ---- Runs of many threads ---------------------------------------------------------------

  /** A thread stores the indicators of a frame it found no entry for. */
  datatype Store<K> = Kept(key: K, frame: Frame)

  /** The table after any sequence of stores, starting empty; look-ups do not change it. */
  function TableAfter<K(!new), E>(capacity: nat, compute: (K, Frame) -> E, stores: seq<Store<K>>): Table<K, E> {
    if stores == [] then Table(map[], [])
    else
      var s := stores[|stores| - 1];
      Stored(TableAfter(capacity, compute, stores[..|stores| - 1]), capacity, s.key, s.frame, compute(s.key, s.frame))
  }

  ghost predicate ComesFrom<K(!new), E>(compute: (K, Frame) -> E, stores: seq<Store<K>>, key: K, entry: Entry<E>) {
    exists s :: s in stores && s.key == key && entry == Entry(Token(s.frame), compute(key, s.frame))
  }

  /** Whatever the interleaving, the table is bounded and each entry holds the indicators of some
      frame that was stored for its key, under that frame's fingerprint. */
  lemma {:induction false} EntriesAreComputed<K(!new), E>(capacity: nat, compute: (K, Frame) -> E,
                                                          stores: seq<Store<K>>, key: K)
    ensures var t := TableAfter(capacity, compute, stores);
      && WellFormed(t) && |t.order| <= capacity
      && (key in t.entries ==> ComesFrom(compute, stores, key, t.entries[key]))
  {
    if stores != [] {
      var before, last := stores[..|stores| - 1], stores[|stores| - 1];
      EntriesAreComputed(capacity, compute, before, key);
      var t := TableAfter(capacity, compute, before);
      var put := Put(t, last.key, Entry(Token(last.frame), compute(last.key, last.frame)));
      PutKeepsWellFormed(t, last.key, Entry(Token(last.frame), compute(last.key, last.frame)));
      TrimKeeps(put, capacity);
      assert last in stores;
      assert forall s :: s in before ==> s in stores;
    }
  }

  /** `frame` is one of the values the series takes along a run of polls. */
  ghost predicate IsSnapshot(maxlen: nat, start: Frame, pages: seq<seq<Kline>>, frame: Frame) {
    exists k: nat :: k <= |pages| && frame == SeriesAfter(maxlen, start, pages[..k])
  }

  /** End to end: while polls come in order or bring a newer candle, a hit is exactly what computing
      the indicators of the caller's own frame would give, however threads interleave and whatever
      was evicted. */
  lemma HitsAreExact<K(!new), E>(capacity: nat, compute: (K, Frame) -> E, stores: seq<Store<K>>,
                                 maxlen: nat, start: Frame, pages: seq<seq<Kline>>, key: K, frame: Frame)
    requires |start| <= maxlen && AllAdvance(maxlen, start, pages)
    requires IsSnapshot(maxlen, start, pages, frame)
    requires forall s :: s in stores && s.key == key ==> IsSnapshot(maxlen, start, pages, s.frame)
    ensures var hit := Lookup(TableAfter(capacity, compute, stores), key, frame);
      hit.Some? ==> hit.value == compute(key, frame)
  {
    EntriesAreComputed(capacity, compute, stores, key);
    if Lookup(TableAfter(capacity, compute, stores), key, frame).Some? {
      var s :| s in stores && s.key == key &&
        TableAfter(capacity, compute, stores).entries[key] == Entry(Token(s.frame), compute(key, s.frame));
      var a: nat :| a <= |pages| && frame == SeriesAfter(maxlen, start, pages[..a]);
      var b: nat :| b <= |pages| && s.frame == SeriesAfter(maxlen, start, pages[..b]);
      if a <= b {
        FingerprintIsFaithful(maxlen, start, pages, a, b);
      } else {
        FingerprintIsFaithful(maxlen, start, pages, b, a);
      }
    }
  }

  lemma DropFirstKeepsLast<K(!new), E>(t: Table<K, E>, count: nat)
    requires WellFormed(t) && count < |t.order|
    ensures var key := t.order[|t.order| - 1];
      key in DropFirst(t, count).entries && DropFirst(t, count).entries[key] == t.entries[key]
  {
    DropFirstKeeps(t, count);
    var kept := t.order[count..];
    assert kept[|kept| - 1] == t.order[|t.order| - 1];
    assert kept[|kept| - 1] in kept;
  }

  /** What was stored last is there, whatever the table held before. */
  lemma LastStoreIsFound<K(!new), E>(capacity: nat, compute: (K, Frame) -> E, stores: seq<Store<K>>,
                                     key: K, frame: Frame)
    requires capacity > 0
    ensures var t := TableAfter(capacity, compute, stores + [Kept(key, frame)]);
      key in t.entries && t.entries[key] == Entry(Token(frame), compute(key, frame))
  {
    assert (stores + [Kept(key, frame)])[..|stores|] == stores;
    var before := TableAfter(capacity, compute, stores);
    EntriesAreComputed(capacity, compute, stores, key);
    var put := Put(before, key, Entry(Token(frame), compute(key, frame)));
    PutKeepsWellFormed(before, key, Entry(Token(frame), compute(key, frame)));
    if |put.order| > capacity {
      DropFirstKeepsLast(put, |put.order| - capacity);
    }
  }

  /** Whatever the cache and the stored series hold: a thread that stores the indicators of the
      current frame and asks again after one poll of any page is served them for a different frame
      exactly when the page starts before the last stored row, the series is full, both end with
      the same row, and the series does not already repeat with the page's period. */
  lemma WrongHitIff<K(!new), E>(capacity: nat, compute: (K, Frame) -> E, stores: seq<Store<K>>, key: K,
                                maxlen: nat, series: Frame, page: Frame)
    requires capacity > 0 && series != [] && page != [] && |series| <= maxlen && Increasing(page)
    ensures var after := AbsorbAll(maxlen, series, page);
      var hit := Lookup(TableAfter(capacity, compute, stores + [Kept(key, series)]), key, after);
      && (hit.Some? ==> hit.value == compute(key, series))
      && (hit.Some? && after != series <==>
            && !InOrder(series, page) && |series| == maxlen
            && page[|page| - 1] == series[|series| - 1] && !Repeats(series, page))
  {
    FingerprintFooledIff(maxlen, series, page);
    LastStoreIsFound(capacity, compute, stores, key, series);
  }

  /** That is what a poll without a new candle does to a full series in order. */
  lemma RepeatedPageHitsOldEntry<K(!new), E>(capacity: nat, compute: (K, Frame) -> E, stores: seq<Store<K>>, key: K,
                                             series: Frame, page: Frame)
    requires capacity > 0
    requires Increasing(series) && Increasing(page) && 2 <= |page| < |series|
    requires page[|page| - 1] == series[|series| - 1]
    ensures var after := AbsorbAll(|series|, series, page);
      && after != series
      && Lookup(TableAfter(capacity, compute, stores + [Kept(key, series)]), key, after) == Some(compute(key, series))
  {
    RepeatedPageKeepsFingerprint(series, page);
    LastStoreIsFound(capacity, compute, stores, key, series);
  }
}
