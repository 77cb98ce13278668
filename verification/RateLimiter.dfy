/** The sliding-window weight budget of the backtest downloader
    (backtest/backtest.py, class RateLimiter).

    Every poll of `acquire` runs under the limiter's lock and reads the clock there, so any
    interleaving of concurrent `acquire` calls is one sequence of polls with nondecreasing
    clock readings.  `Poll` is one such poll and `Grants` is the history of a whole sequence. */
module RateLimiting {
  import opened Common

  const WINDOW: real := 60.0

  datatype Grant = Grant(time: real, weight: nat)

  /** One poll: the clock reading and the weight the caller asks for. */
  datatype Request = Request(now: real, weight: nat)

  function WeightForLimit(limit: int): (weight: nat) {
    if limit < 100 then 1
    else if limit < 500 then 2
    else if limit < 1000 then 5
    else 10
  }

  /** The weights, at the ends of their ranges, and no request for more rows weighs less. */
  lemma WeightTable(a: int, b: int)
    requires a <= b
    ensures WeightForLimit(a) <= WeightForLimit(b)
    ensures WeightForLimit(1) == WeightForLimit(99) == 1
    ensures WeightForLimit(100) == WeightForLimit(499) == 2
    ensures WeightForLimit(500) == WeightForLimit(999) == 5
    ensures WeightForLimit(1000) == WeightForLimit(1500) == 10
  {
  }

  /** The grants that a poll at `now` still counts. */
  function Live(grants: seq<Grant>, now: real): seq<Grant> {
    if grants == [] then []
    else
      var last := grants[|grants| - 1];
      var rest := Live(grants[..|grants| - 1], now);
      if now - last.time < WINDOW then rest + [last] else rest
  }

  function Total(grants: seq<Grant>): nat {
    if grants == [] then 0
    else Total(grants[..|grants| - 1]) + grants[|grants| - 1].weight
  }

  /** Weight granted in the window [from, from + 60). */
  function WindowWeight(grants: seq<Grant>, from: real): nat {
    if grants == [] then 0
    else
      var last := grants[|grants| - 1];
      WindowWeight(grants[..|grants| - 1], from) +
      (if from <= last.time < from + WINDOW then last.weight else 0)
  }

  predicate Granted(max: int, timestamps: seq<Grant>, r: Request) {
    Total(Live(timestamps, r.now)) + r.weight <= max
  }

  /** The list the limiter holds after one poll. */
  function Poll(max: int, timestamps: seq<Grant>, r: Request): seq<Grant> {
    var live := Live(timestamps, r.now);
    if Granted(max, timestamps, r) then live + [Grant(r.now, r.weight)] else live
  }

  /** The requests of one thread that keeps polling for `weight`. */
  function Asks(clock: seq<real>, weight: nat): seq<Request> {
    seq(|clock|, i requires 0 <= i < |clock| => Request(clock[i], weight))
  }

  /** The limiter's list after a whole sequence of polls, by any threads. */
  function After(max: int, timestamps: seq<Grant>, polls: seq<Request>): seq<Grant> {
    if polls == [] then timestamps
    else Poll(max, After(max, timestamps, polls[..|polls| - 1]), polls[|polls| - 1])
  }

  /** The list after a thread's first `k` polls for `weight`. */
  function AfterAsking(max: int, timestamps: seq<Grant>, clock: seq<real>, weight: nat, k: nat): seq<Grant>
    requires k <= |clock|
  {
    After(max, timestamps, Asks(clock[..k], weight))
  }

  predicate GrantedAt(max: int, timestamps: seq<Grant>, clock: seq<real>, weight: nat, k: nat)
    requires k < |clock|
  {
    Granted(max, AfterAsking(max, timestamps, clock, weight, k), Request(clock[k], weight))
  }

  lemma AskingStep(max: int, timestamps: seq<Grant>, clock: seq<real>, weight: nat, k: nat)
    requires k < |clock|
    ensures AfterAsking(max, timestamps, clock, weight, k + 1) ==
            Poll(max, AfterAsking(max, timestamps, clock, weight, k), Request(clock[k], weight))
  {
    var asks := Asks(clock[..k + 1], weight);
    assert asks[..k] == Asks(clock[..k], weight);
  }

  class RateLimiter {
    const max: int
    var timestamps: seq<Grant>

    constructor (max: int)
      ensures this.max == max && timestamps == []
    {
      this.max := max;
      timestamps := [];
    }

    /** One pass of the loop in `acquire`, under the lock. */
    method PollOnce(now: real, limit: int) returns (granted: bool)
      modifies this
      ensures granted == Granted(max, old(timestamps), Request(now, WeightForLimit(limit)))
      ensures timestamps == Poll(max, old(timestamps), Request(now, WeightForLimit(limit)))
    {
      var weight := WeightForLimit(limit);
      var kept: seq<Grant> := [];
      var current := 0;
      for k := 0 to |timestamps|
        invariant kept == Live(timestamps[..k], now)
        invariant current == Total(kept)
        invariant timestamps == old(timestamps)
      {
        assert timestamps[..k + 1][..k] == timestamps[..k];
        var g := timestamps[k];
        if now - g.time < WINDOW {
          assert (kept + [g])[..|kept|] == kept;
          kept := kept + [g];
          current := current + g.weight;
        }
      }
      assert timestamps[..|timestamps|] == timestamps;
      timestamps := kept;
      granted := current + weight <= max;
      if granted {
        timestamps := timestamps + [Grant(now, weight)];
      }
    }

    /** `acquire` as its thread sees it: poll until a poll grants.  `clock` holds the readings
        the thread makes; it stops ungranted only when they run out. */
    method Acquire(limit: int, clock: seq<real>) returns (granted: bool, polls: nat)
      modifies this
      ensures polls <= |clock|
      ensures timestamps == AfterAsking(max, old(timestamps), clock, WeightForLimit(limit), polls)
      ensures !granted ==> polls == |clock|
      ensures granted ==> polls > 0
      ensures forall k :: 0 <= k < polls ==>
        GrantedAt(max, old(timestamps), clock, WeightForLimit(limit), k) == (granted && k == polls - 1)
    {
      granted, polls := false, 0;
      ghost var weight := WeightForLimit(limit);
      while polls < |clock| && !granted
        invariant polls <= |clock|
        invariant granted ==> polls > 0
        invariant timestamps == AfterAsking(max, old(timestamps), clock, weight, polls)
        invariant forall k :: 0 <= k < polls ==>
          GrantedAt(max, old(timestamps), clock, weight, k) == (granted && k == polls - 1)
        decreases |clock| - polls, !granted
      {
        AskingStep(max, old(timestamps), clock, weight, polls);
        granted := PollOnce(clock[polls], limit);
        polls := polls + 1;
      }
    }
  }

  /** Every grant the limiter ever made, starting empty; nothing is discarded here. */
  function Grants(max: int, polls: seq<Request>): seq<Grant> {
    if polls == [] then []
    else
      var before := polls[..|polls| - 1];
      var r := polls[|polls| - 1];
      if Granted(max, After(max, [], before), r)
      then Grants(max, before) + [Grant(r.now, r.weight)]
      else Grants(max, before)
  }

  ghost predicate Nondecreasing(polls: seq<Request>) {
    forall i, j :: 0 <= i < j < |polls| ==> polls[i].now <= polls[j].now
  }

  lemma {:induction false} LiveAppend(grants: seq<Grant>, g: Grant, now: real)
    ensures Live(grants + [g], now) == Live(grants, now) + (if now - g.time < WINDOW then [g] else [])
  {
    assert (grants + [g])[..|grants|] == grants;
  }

  lemma {:induction false} LiveOfLive(grants: seq<Grant>, earlier: real, now: real)
    requires earlier <= now
    ensures Live(Live(grants, earlier), now) == Live(grants, now)
  {
    if grants != [] {
      var last := grants[|grants| - 1];
      var rest := grants[..|grants| - 1];
      LiveOfLive(rest, earlier, now);
      LiveAppend(Live(rest, earlier), last, now);
    }
  }

  /** Discarding old timestamps loses nothing: the limiter's list is always the live part of
      the full history. */
  lemma {:induction false} ListIsLiveHistory(max: int, polls: seq<Request>)
    requires Nondecreasing(polls) && polls != []
    ensures After(max, [], polls) == Live(Grants(max, polls), polls[|polls| - 1].now)
  {
    var before, r := polls[..|polls| - 1], polls[|polls| - 1];
    if before != [] {
      ListIsLiveHistory(max, before);
      LiveOfLive(Grants(max, before), before[|before| - 1].now, r.now);
    }
    LiveAppend(Grants(max, before), Grant(r.now, r.weight), r.now);
  }

  lemma {:induction false} WindowInsideLive(grants: seq<Grant>, from: real, now: real)
    requires now < from + WINDOW
    ensures WindowWeight(grants, from) <= Total(Live(grants, now))
  {
    if grants != [] {
      var last := grants[|grants| - 1];
      var rest := grants[..|grants| - 1];
      WindowInsideLive(rest, from, now);
      assert (Live(rest, now) + [last])[..|Live(rest, now)|] == Live(rest, now);
    }
  }

  lemma WindowAppend(grants: seq<Grant>, g: Grant, from: real)
    ensures WindowWeight(grants + [g], from) ==
            WindowWeight(grants, from) + (if from <= g.time < from + WINDOW then g.weight else 0)
  {
    assert (grants + [g])[..|grants|] == grants;
  }

  /** A grant inside a window counts everything the window already holds. */
  lemma GrantFits(max: int, before: seq<Request>, r: Request, from: real)
    requires Nondecreasing(before + [r]) && Granted(max, After(max, [], before), r)
    requires r.now < from + WINDOW
    ensures WindowWeight(Grants(max, before), from) + r.weight <= max
  {
    var held := Grants(max, before);
    if before != [] {
      var polls := before + [r];
      assert forall i :: 0 <= i < |before| ==> before[i] == polls[i];
      assert before[|before| - 1] == polls[|before| - 1] && r == polls[|before|];
      ListIsLiveHistory(max, before);
      LiveOfLive(held, before[|before| - 1].now, r.now);
    }
    WindowInsideLive(held, from, r.now);
  }

  /** Over any run of concurrent `acquire` calls, the weight granted in every 60-second
      window, wherever it starts, is within the budget. */
  lemma {:induction false} EveryWindowWithinBudget(max: int, polls: seq<Request>, from: real)
    requires Nondecreasing(polls)
    ensures WindowWeight(Grants(max, polls), from) <= MaxInt(max, 0)
  {
    if polls != [] {
      var before, r := polls[..|polls| - 1], polls[|polls| - 1];
      assert polls == before + [r];
      EveryWindowWithinBudget(max, before, from);
      WindowAppend(Grants(max, before), Grant(r.now, r.weight), from);
      if Granted(max, After(max, [], before), r) && from <= r.now < from + WINDOW {
        GrantFits(max, before, r, from);
      }
    }
  }

  lemma GrantsAppend(max: int, before: seq<Request>, r: Request)
    ensures After(max, [], before + [r]) == Poll(max, After(max, [], before), r)
    ensures Grants(max, before + [r]) == Grants(max, before) +
            (if Granted(max, After(max, [], before), r) then [Grant(r.now, r.weight)] else [])
  {
    assert (before + [r])[..|before|] == before;
  }

  lemma {:induction false} ExpiredGrantsAreNotLive(grants: seq<Grant>, now: real)
    requires forall g :: g in grants ==> g.time + WINDOW <= now
    ensures Live(grants, now) == []
  {
    if grants != [] {
      ExpiredGrantsAreNotLive(grants[..|grants| - 1], now);
      assert grants[|grants| - 1] in grants;
    }
  }

  // ---- Windows with both ends included ----------------------------------------------------

  /** Weight granted in the window [from, from + 60]. */
  function ClosedWeight(grants: seq<Grant>, from: real): nat {
    if grants == [] then 0
    else
      var last := grants[|grants| - 1];
      ClosedWeight(grants[..|grants| - 1], from) + (if from <= last.time <= from + WINDOW then last.weight else 0)
  }

  lemma ClosedAppend(grants: seq<Grant>, g: Grant, from: real)
    ensures ClosedWeight(grants + [g], from) ==
            ClosedWeight(grants, from) + (if from <= g.time <= from + WINDOW then g.weight else 0)
  {
    assert (grants + [g])[..|grants|] == grants;
  }

  /** The poll also fits when grants that are exactly 60 seconds old still count. */
  predicate FitsClosed(max: int, grants: seq<Grant>, r: Request) {
    ClosedWeight(grants, r.now - WINDOW) + r.weight <= max
  }

  predicate PollFitsClosed(max: int, before: seq<Request>, r: Request) {
    Granted(max, After(max, [], before), r) ==> FitsClosed(max, Grants(max, before), r)
  }

  /** Every granted poll of a run does. */
  predicate AllFitClosed(max: int, polls: seq<Request>) {
    polls == [] ||
    var before, r := polls[..|polls| - 1], polls[|polls| - 1];
    AllFitClosed(max, before) && PollFitsClosed(max, before, r)
  }

  /** Grants come from polls, so none is newer than the last poll. */
  lemma {:induction false} GrantsNotLater(max: int, polls: seq<Request>, now: real)
    requires forall i :: 0 <= i < |polls| ==> polls[i].now <= now
    ensures forall g :: g in Grants(max, polls) ==> g.time <= now
  {
    if polls != [] {
      GrantsNotLater(max, polls[..|polls| - 1], now);
    }
  }

  /** A window that reaches up to `now` holds no more than the one that ends at `now`. */
  lemma {:induction false} EarlierEndHoldsMore(grants: seq<Grant>, from: real, now: real)
    requires now <= from + WINDOW && forall g :: g in grants ==> g.time <= now
    ensures ClosedWeight(grants, from) <= ClosedWeight(grants, now - WINDOW)
  {
    if grants != [] {
      assert grants[|grants| - 1] in grants;
      EarlierEndHoldsMore(grants[..|grants| - 1], from, now);
    }
  }

  ghost predicate EveryClosedWindowWithin(max: int, polls: seq<Request>) {
    forall from: real :: ClosedWeight(Grants(max, polls), from) <= max
  }

  /** What one more poll does to one window. */
  lemma ClosedAt(max: int, before: seq<Request>, r: Request, from: real)
    requires Nondecreasing(before + [r])
    ensures var held, all := Grants(max, before), Grants(max, before + [r]);
      if Granted(max, After(max, [], before), r) && from <= r.now <= from + WINDOW
      then ClosedWeight(all, from) == ClosedWeight(held, from) + r.weight
           && ClosedWeight(held, from) <= ClosedWeight(held, r.now - WINDOW)
      else ClosedWeight(all, from) == ClosedWeight(held, from)
  {
    GrantsAppend(max, before, r);
    ClosedAppend(Grants(max, before), Grant(r.now, r.weight), from);
    var all := before + [r];
    assert forall i :: 0 <= i < |before| ==> before[i] == all[i] && all[i].now <= all[|before|].now;
    GrantsNotLater(max, before, r.now);
    if from <= r.now <= from + WINDOW {
      EarlierEndHoldsMore(Grants(max, before), from, r.now);
    }
  }

  lemma WithinFits(max: int, before: seq<Request>, r: Request)
    requires Nondecreasing(before + [r]) && EveryClosedWindowWithin(max, before + [r])
    ensures EveryClosedWindowWithin(max, before) && PollFitsClosed(max, before, r)
  {
    forall from: real ensures ClosedWeight(Grants(max, before), from) <= max {
      ClosedAt(max, before, r, from);
      assert ClosedWeight(Grants(max, before + [r]), from) <= max;
    }
    ClosedAt(max, before, r, r.now - WINDOW);
    assert ClosedWeight(Grants(max, before + [r]), r.now - WINDOW) <= max;
  }

  lemma FitsWithin(max: int, before: seq<Request>, r: Request)
    requires Nondecreasing(before + [r]) && EveryClosedWindowWithin(max, before) && PollFitsClosed(max, before, r)
    ensures EveryClosedWindowWithin(max, before + [r])
  {
    forall from: real ensures ClosedWeight(Grants(max, before + [r]), from) <= max {
      ClosedAt(max, before, r, from);
    }
  }

  /** The budget holds for every window with both ends included if and only if every granted poll
      would also have fitted with `<=` for `<` in the program's guard. */
  lemma {:induction false} ClosedWindowsWithinIff(max: int, polls: seq<Request>)
    requires max >= 0 && Nondecreasing(polls)
    ensures EveryClosedWindowWithin(max, polls) <==> AllFitClosed(max, polls)
  {
    if polls != [] {
      var before, r := polls[..|polls| - 1], polls[|polls| - 1];
      assert polls == before + [r];
      ClosedWindowsWithinIff(max, before);
      if EveryClosedWindowWithin(max, polls) {
        WithinFits(max, before, r);
      } else if AllFitClosed(max, polls) {
        FitsWithin(max, before, r);
      }
    }
  }

  /** `n` requests of one kind at one instant, and the grants they get. */
  function Burst(now: real, weight: nat, n: nat): seq<Request> {
    if n == 0 then [] else Burst(now, weight, n - 1) + [Request(now, weight)]
  }

  function BurstGrants(now: real, weight: nat, n: nat): seq<Grant> {
    if n == 0 then [] else BurstGrants(now, weight, n - 1) + [Grant(now, weight)]
  }

  lemma {:induction false} BurstTotal(now: real, weight: nat, n: nat)
    ensures Total(BurstGrants(now, weight, n)) == n * weight
  {
    if n > 0 {
      BurstTotal(now, weight, n - 1);
      assert n * weight == (n - 1) * weight + weight;
    }
  }

  lemma {:induction false} BurstWeighs(grants: seq<Grant>, now: real, weight: nat, n: nat, from: real)
    requires from <= now <= from + WINDOW
    ensures ClosedWeight(grants + BurstGrants(now, weight, n), from) ==
            ClosedWeight(grants, from) + Total(BurstGrants(now, weight, n))
  {
    var some, g := BurstGrants(now, weight, n), Grant(now, weight);
    if n == 0 {
      assert grants + some == grants;
    } else {
      some := BurstGrants(now, weight, n - 1);
      BurstWeighs(grants, now, weight, n - 1, from);
      assert grants + (some + [g]) == (grants + some) + [g];
      ClosedAppend(grants + some, g, from);
      assert (some + [g])[..|some|] == some;
    }
  }

  lemma OneMoreIsGranted(max: int, polls: seq<Request>, r: Request)
    requires Granted(max, After(max, [], polls), r)
    ensures Live(After(max, [], polls + [r]), r.now) == Live(After(max, [], polls), r.now) + [Grant(r.now, r.weight)]
    ensures Grants(max, polls + [r]) == Grants(max, polls) + [Grant(r.now, r.weight)]
  {
    var list := After(max, [], polls);
    GrantsAppend(max, polls, r);
    LiveAppend(Live(list, r.now), Grant(r.now, r.weight), r.now);
    LiveOfLive(list, r.now, r.now);
  }

  lemma TotalAppend(grants: seq<Grant>, g: Grant)
    ensures Total(grants + [g]) == Total(grants) + g.weight
  {
    assert (grants + [g])[..|grants|] == grants;
  }

  lemma Regroup<T>(a: seq<T>, b: seq<T>, c: seq<T>)
    ensures (a + b) + c == a + (b + c)
  {
  }

  /** When nothing is live, a burst that fits the budget is granted whole. */
  lemma {:induction false} BurstIsGranted(max: int, before: seq<Request>, now: real, weight: nat, n: nat)
    requires Live(After(max, [], before), now) == [] && Total(BurstGrants(now, weight, n)) <= max
    ensures Live(After(max, [], before + Burst(now, weight, n)), now) == BurstGrants(now, weight, n)
    ensures Grants(max, before + Burst(now, weight, n)) == Grants(max, before) + BurstGrants(now, weight, n)
  {
    if n == 0 {
      assert before + Burst(now, weight, 0) == before;
    } else {
      var asked, granted := Burst(now, weight, n - 1), BurstGrants(now, weight, n - 1);
      var r, g := Request(now, weight), Grant(now, weight);
      TotalAppend(granted, g);
      BurstIsGranted(max, before, now, weight, n - 1);
      OneMoreIsGranted(max, before + asked, r);
      Regroup(before, asked, [r]);
      Regroup(Grants(max, before), granted, [g]);
    }
  }

  lemma {:induction false} BurstIsOneInstant(now: real, weight: nat, n: nat)
    ensures |Burst(now, weight, n)| == n && forall r :: r in Burst(now, weight, n) ==> r.now == now
    ensures forall g :: g in BurstGrants(now, weight, n) ==> g.time == now
  {
    if n > 0 {
      BurstIsOneInstant(now, weight, n - 1);
    }
  }

  lemma BurstListExpires(max: int, start: real, weight: nat, n: nat)
    requires Grants(max, Burst(start, weight, n)) == BurstGrants(start, weight, n)
    ensures Live(After(max, [], Burst(start, weight, n)), start + WINDOW) == []
  {
    var polls := Burst(start, weight, n);
    BurstIsOneInstant(start, weight, n);
    if n > 0 {
      assert polls[n - 1] in polls;
      ListIsLiveHistory(max, polls);
      LiveOfLive(BurstGrants(start, weight, n), start, start + WINDOW);
      ExpiredGrantsAreNotLive(BurstGrants(start, weight, n), start + WINDOW);
    }
  }

  /** Two bursts, sixty seconds apart. */
  function TwoBursts(start: real, weight: nat, n: nat): seq<Request> {
    Burst(start, weight, n) + Burst(start + WINDOW, weight, n)
  }

  lemma TwoBurstsAreGranted(max: int, start: real, weight: nat, n: nat)
    requires Total(BurstGrants(start, weight, n)) <= max
    requires Total(BurstGrants(start + WINDOW, weight, n)) <= max
    ensures Grants(max, TwoBursts(start, weight, n)) ==
            BurstGrants(start, weight, n) + BurstGrants(start + WINDOW, weight, n)
  {
    var first := Burst(start, weight, n);
    assert [] + first == first && [] + BurstGrants(start, weight, n) == BurstGrants(start, weight, n);
    BurstIsGranted(max, [], start, weight, n);
    BurstListExpires(max, start, weight, n);
    BurstIsGranted(max, first, start + WINDOW, weight, n);
  }

  /** They do not all hold: `now - t < 60` frees a grant exactly sixty seconds later, so for every
      budget a full minute's worth of requests, of any weight `acquire` can ask for, is granted at
      one instant and again sixty seconds later, all in one closed window. */
  lemma ClosedWindowHoldsTwiceTheBudget(max: int, limit: int, start: real, n: nat)
    requires n * WeightForLimit(limit) <= max
    ensures var w := WeightForLimit(limit);
      && Nondecreasing(TwoBursts(start, w, n))
      && ClosedWeight(Grants(max, TwoBursts(start, w, n)), start) == n * w + n * w
  {
    var w, end := WeightForLimit(limit), start + WINDOW;
    BurstTotal(start, w, n);
    BurstTotal(end, w, n);
    TwoBurstsAreGranted(max, start, w, n);
    BurstIsOneInstant(start, w, n);
    BurstIsOneInstant(end, w, n);
    assert [] + BurstGrants(start, w, n) == BurstGrants(start, w, n);
    BurstWeighs([], start, w, n, start);
    BurstWeighs(BurstGrants(start, w, n), end, w, n, start);
  }

  /** Progress: from any list, a request can still be granted at some later reading if and
      only if its weight fits the budget at all. */
  lemma GrantableIffWeightFits(max: int, timestamps: seq<Grant>, weight: nat, quietSince: real)
    requires forall g :: g in timestamps ==> g.time <= quietSince
    ensures (exists now: real :: now >= quietSince && Granted(max, timestamps, Request(now, weight)))
            <==> weight <= max
  {
    var later := quietSince + WINDOW;
    ExpiredGrantsAreNotLive(timestamps, later);
    if weight <= max {
      assert Granted(max, timestamps, Request(later, weight));
    }
  }
}
