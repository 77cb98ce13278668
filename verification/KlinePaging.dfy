/** Backward pagination of historical candles (backtest/backtest.py, `_fetch_klines`).

    The server holds one history with strictly increasing open times and answers a request
    with the newest rows at or before `endTime`.  Each page is tried at most four times: a
    rate-limit ban uses up an attempt without ever raising, any other failure raises on the
    fourth attempt. */
module KlinePaging {
  import opened Common

  const MAX_PER_REQUEST := 1500
  const MAX_RETRIES := 4

  /** How one attempt at one page ends. */
  datatype Reply = Answered | Banned | Failed

  /** How a page ends after its attempts. */
  datatype PageEnd = Got | Nothing | GaveUp

  datatype FetchResult = Frame(rows: seq<Kline>) | Raised

  type Replies = (nat, nat) -> Reply

  function Newest(rows: seq<Kline>, count: int): seq<Kline> {
    if count <= 0 then [] else if count >= |rows| then rows else rows[|rows| - count..]
  }

  function UpTo(rows: seq<Kline>, endTime: Option<int>): seq<Kline> {
    if rows == [] || endTime.None? then rows
    else
      var rest := UpTo(rows[..|rows| - 1], endTime);
      if rows[|rows| - 1].openTime <= endTime.value then rest + [rows[|rows| - 1]] else rest
  }

  /** The server: the newest `limit` rows at or before `endTime`. */
  function Serve(history: seq<Kline>, limit: int, endTime: Option<int>): seq<Kline> {
    Newest(UpTo(history, endTime), limit)
  }

  function PageOutcome(replies: Replies, page: nat, attempt: nat): PageEnd
    decreases MAX_RETRIES - attempt
  {
    if attempt >= MAX_RETRIES then Nothing
    else match replies(page, attempt)
      case Answered => Got
      case Banned => PageOutcome(replies, page, attempt + 1)
      case Failed => if attempt < MAX_RETRIES - 1 then PageOutcome(replies, page, attempt + 1) else GaveUp
  }

  /** No attempt before `a` is answered. */
  predicate Unanswered(replies: Replies, page: nat, a: nat) {
    forall b: nat :: b < a ==> replies(page, b) != Answered
  }

  lemma {:induction false} OutcomeFrom(replies: Replies, page: nat, a: nat)
    requires a < 4
    ensures PageOutcome(replies, page, a) ==
      if exists b: nat :: a <= b < 4 && replies(page, b) == Answered then Got
      else if replies(page, 3) == Failed then GaveUp else Nothing
    decreases 4 - a
  {
    if a < 3 {
      OutcomeFrom(replies, page, a + 1);
    }
  }

  /** Four attempts in plain terms: the page is got exactly when one of them is answered; without an
      answer it raises exactly when the fourth failed, and ends without a page when it was banned. */
  lemma PageOutcomeIff(replies: Replies, page: nat)
    ensures PageOutcome(replies, page, 0) == Got <==> exists a: nat :: a < 4 && replies(page, a) == Answered
    ensures PageOutcome(replies, page, 0) == GaveUp <==> Unanswered(replies, page, 4) && replies(page, 3) == Failed
    ensures PageOutcome(replies, page, 0) == Nothing <==> Unanswered(replies, page, 4) && replies(page, 3) == Banned
  {
    OutcomeFrom(replies, page, 0);
  }

  /** `drop_duplicates(subset=["open_time"])`: the first row of every open time. */
  function DropDuplicates(rows: seq<Kline>): seq<Kline> {
    if rows == [] then []
    else
      var before := rows[..|rows| - 1];
      var last := rows[|rows| - 1];
      if exists r :: r in before && r.openTime == last.openTime
      then DropDuplicates(before)
      else DropDuplicates(before) + [last]
  }

  function Insert(rows: seq<Kline>, row: Kline): seq<Kline> {
    if rows == [] || rows[|rows| - 1].openTime <= row.openTime then rows + [row]
    else Insert(rows[..|rows| - 1], row) + [rows[|rows| - 1]]
  }

  /** `sort_values("open_time")`. */
  function SortByOpenTime(rows: seq<Kline>): seq<Kline> {
    if rows == [] then [] else Insert(SortByOpenTime(rows[..|rows| - 1]), rows[|rows| - 1])
  }

  // ---- Strictly increasing rows, read from the end ----------------------------------------

  /** `Increasing`, one row at a time; easier on the proofs that peel rows off the end. */
  ghost predicate Ascending(rows: seq<Kline>) {
    rows == [] ||
    var before, last := rows[..|rows| - 1], rows[|rows| - 1];
    Ascending(before) && forall r :: r in before ==> r.openTime < last.openTime
  }

  lemma {:induction false} IncreasingIsAscending(rows: seq<Kline>)
    requires Increasing(rows)
    ensures Ascending(rows)
  {
    if rows != [] {
      PrefixIncreasing(rows, |rows| - 1);
      LastIsNewest(rows);
      IncreasingIsAscending(rows[..|rows| - 1]);
    }
  }

  lemma {:induction false} UpToAll(rows: seq<Kline>, endTime: int)
    requires forall r :: r in rows ==> r.openTime <= endTime
    ensures UpTo(rows, Some(endTime)) == rows
  {
    if rows != [] {
      assert rows[|rows| - 1] in rows;
      UpToAll(rows[..|rows| - 1], endTime);
    }
  }

  /** Asking for what lies before row `k` gives exactly the rows before it. */
  lemma {:induction false} UpToIsPrefix(history: seq<Kline>, k: nat)
    requires Ascending(history) && k < |history|
    ensures UpTo(history, Some(history[k].openTime - 1)) == history[..k]
  {
    var before, last := history[..|history| - 1], history[|history| - 1];
    if k < |before| {
      UpToIsPrefix(before, k);
      assert before[k] in before && before[..k] == history[..k];
    } else {
      UpToAll(before, last.openTime - 1);
    }
  }

  lemma {:induction false} NothingToDrop(rows: seq<Kline>)
    requires Ascending(rows)
    ensures DropDuplicates(rows) == rows
  {
    if rows != [] {
      NothingToDrop(rows[..|rows| - 1]);
    }
  }

  lemma {:induction false} AlreadySorted(rows: seq<Kline>)
    requires Ascending(rows)
    ensures SortByOpenTime(rows) == rows
  {
    if rows != [] {
      var before := rows[..|rows| - 1];
      AlreadySorted(before);
      assert before != [] ==> before[|before| - 1] in before;
    }
  }

  /** On rows that already come in strictly increasing order the final clean-up changes nothing. */
  lemma CleanUpIsNoOp(rows: seq<Kline>)
    requires Increasing(rows)
    ensures SortByOpenTime(DropDuplicates(rows)) == rows
  {
    IncreasingIsAscending(rows);
    NothingToDrop(rows);
    AlreadySorted(rows);
  }

  /** A page requested just before the rows already held is the stretch in front of them. */
  lemma PageBefore(history: seq<Kline>, k: nat, endTime: Option<int>, limit: nat)
    requires Ascending(history) && k <= |history| && limit > 0
    requires endTime == if k == |history| then None else Some(history[k].openTime - 1)
    ensures Serve(history, limit, endTime) == history[if limit < k then k - limit else 0..k]
  {
    assert UpTo(history, endTime) == history[..k] by {
      if k < |history| { UpToIsPrefix(history, k); } else { assert history[..k] == history; }
    }
  }

  /** One page, with its retries. */
  method FetchPage(history: seq<Kline>, limit: int, endTime: Option<int>, replies: Replies, page: nat)
    returns (outcome: PageEnd, klines: seq<Kline>)
    ensures outcome == PageOutcome(replies, page, 0)
    ensures klines == if outcome.Got? then Serve(history, limit, endTime) else []
  {
    outcome, klines := Nothing, [];
    for attempt := 0 to MAX_RETRIES
      invariant outcome.Nothing? && klines == []
      invariant PageOutcome(replies, page, attempt) == PageOutcome(replies, page, 0)
    {
      match replies(page, attempt) {
        case Answered =>
          return Got, Serve(history, limit, endTime);
        case Banned =>
        case Failed =>
          if attempt == MAX_RETRIES - 1 {
            return GaveUp, [];
          }
      }
    }
  }

  /** One page of the loop: the stretch of history in front of row `start`. */
  method FetchBefore(history: seq<Kline>, ghost start: nat, limit: nat, endTime: Option<int>,
                     replies: Replies, page: nat)
    returns (outcome: PageEnd, klines: seq<Kline>)
    requires Ascending(history) && start <= |history| && limit > 0
    requires endTime == if start == |history| then None else Some(history[start].openTime - 1)
    ensures outcome == PageOutcome(replies, page, 0)
    ensures klines == history[if !outcome.Got? then start else if limit < start then start - limit else 0..start]
  {
    outcome, klines := FetchPage(history, limit, endTime, replies, page);
    PageBefore(history, start, endTime, limit);
  }

  /** How many rows are held after `pages` full pages of a request for `limit`. */
  function Held(limit: int, pages: nat): nat {
    MinInt(MaxInt(limit, 0), pages * MAX_PER_REQUEST)
  }

  /** `rows + all_rows` */
  function Prepended(ghost history: seq<Kline>, ghost start: nat, page: seq<Kline>, held: seq<Kline>): (r: seq<Kline>)
    requires start + |page| <= |history| && page == history[start..start + |page|] && held == history[start + |page|..]
    ensures r == history[start..] && |r| == |page| + |held|
  {
    page + held
  }

  /** The paging loop: it leaves `history[start..]`, prepended page by page. */
  method CollectPages(history: seq<Kline>, limit: int, replies: Replies)
    returns (raised: bool, allRows: seq<Kline>, ghost start: nat, pages: nat)
    requires Ascending(history)
    ensures forall p: nat :: p < pages ==> PageOutcome(replies, p, 0) == Got
    ensures start <= |history| && allRows == history[start..]
    ensures |allRows| == MinInt(Held(limit, pages), |history|)
    ensures raised ==> PageOutcome(replies, pages, 0) == GaveUp
    ensures !raised && |allRows| < limit && start > 0 ==> PageOutcome(replies, pages, 0) == Nothing
  {
    allRows, pages, start := [], 0, |history|;
    var remaining := limit;
    var endTime: Option<int> := None;
    while remaining > 0
      invariant start <= |history| && allRows == history[start..]
      invariant remaining == limit - |allRows| && |allRows| == Held(limit, pages)
      invariant endTime == if start == |history| then None else Some(history[start].openTime - 1)
      invariant forall p: nat :: p < pages ==> PageOutcome(replies, p, 0) == Got
      decreases remaining
    {
      var fetchLimit := MinInt(remaining, MAX_PER_REQUEST);
      var outcome, klines := FetchBefore(history, start, fetchLimit, endTime, replies, pages);
      if outcome.GaveUp? {
        return true, allRows, start, pages;
      }
      if klines == [] {
        break;
      }
      start := start - |klines|;
      allRows := Prepended(history, start, klines, allRows);
      remaining := remaining - |klines|;
      pages := pages + 1;
      if |klines| < fetchLimit {
        break;
      }
      endTime := Some(klines[0].openTime - 1);
    }
    raised := false;
  }

  /** The download.  `pages` is the number of pages that were answered.

      The frame holds exactly the rows one unlimited request would have returned, cut to the
      pages answered; it falls short of `limit` and of the history only when a page ended
      without an answer, and it raises only when a page's fourth attempt failed. */
  method FetchKlines(history: seq<Kline>, limit: int, replies: Replies) returns (r: FetchResult, pages: nat)
    requires Increasing(history)
    ensures r.Frame? ==> Increasing(r.rows) && r.rows == Newest(history, Held(limit, pages))
    ensures r.Frame? && r.rows != Newest(history, limit) ==> PageOutcome(replies, pages, 0) == Nothing
    ensures r.Raised? ==> PageOutcome(replies, pages, 0) == GaveUp
    ensures forall p: nat :: p < pages ==> PageOutcome(replies, p, 0) == Got
    ensures (forall p: nat :: PageOutcome(replies, p, 0) == Got) ==> r == Frame(Newest(history, limit))
  {
    var raised, allRows;
    ghost var start;
    IncreasingIsAscending(history);
    raised, allRows, start, pages := CollectPages(history, limit, replies);
    assert allRows == Newest(history, Held(limit, pages));
    if raised {
      return Raised, pages;
    }
    SuffixIncreasing(history, start);
    CleanUpIsNoOp(allRows);
    r := Frame(SortByOpenTime(DropDuplicates(allRows)));
  }
}
