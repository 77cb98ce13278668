/** The entry protocol of the live bot (services/entry_service.py): candle-close callbacks and
    follow-up threads race through a stale position cache, a non-blocking lock, a live
    re-check and an order, while the exchange closes positions at any moment.

    Each step below is one atomic action of one thread or of the exchange.  A run is any
    sequence of possible steps, so it covers every interleaving. */
module EntryGate {
  import opened Common
  import opened Positions

  type ThreadId = nat
  type Interval = string

  datatype Phase =
    | Resolving                              // about to read the anchor candle
    | Scanning                               // passed the candle dedupe
    | Chosen(best: Symbol, more: bool)       // execution allowed; `more` candidates were left
    | Locked(best: Symbol, more: bool)       // holds the entry lock, before the live re-check
    | Cleared(best: Symbol, more: bool)      // holds the lock, re-check passed
    | Ordering(best: Symbol, more: bool)     // holds the lock, old orders cleaned up, order in flight
    | Filled(best: Symbol, more: bool)       // holds the lock, order filled
    | Rejected                               // holds the lock, nothing entered
    | Entered(best: Symbol, more: bool)      // released the lock after a fill
    | Finished

  datatype Thread = Thread(interval: Interval, phase: Phase)

  /** `resting` holds symbols whose limit order may still be live after the attempt was given
      up: its cancel failed, or placing or polling raised.  The last four fields are history. */
  datatype State = State(
    open: set<Symbol>, lock: Option<ThreadId>, threads: map<ThreadId, Thread>,
    lastClose: map<Interval, int>, resting: set<Symbol>,
    entered: set<ThreadId>, followed: set<ThreadId>, closings: nat, lateFills: nat)

  /** What one thread sees of the slow part of `_on_close`: the two cache reads may be stale in
      any way, the second may also fail. */
  datatype Scan = Scan(cached: set<Symbol>, cachedAgain: Option<set<Symbol>>, signals: seq<Symbol>,
                       riskAllows: bool, opsAllow: bool)

  datatype Step =
    | Callback(t: ThreadId, interval: Interval)          // the scheduler starts a callback
    | Resolve(t: ThreadId, close: Option<int>)           // anchor candle read, dedupe under its lock
    | Evaluate(t: ThreadId, scan: Scan)
    | Plan(t: ThreadId, valid: bool)                     // plan built and validated, or not
    | TryLock(t: ThreadId)
    | Recheck(t: ThreadId, rows: Option<seq<PositionRow>>) // None: the exchange call failed
    | CleanUp(t: ThreadId, works: bool)                  // cancel-all for the symbol, which may fail
    | Fill(t: ThreadId, leftovers: bool)
    | NoFill(t: ThreadId, partial: bool, leftovers: bool) // reported unfilled; `partial` if it opened a position anyway
    | Release(t: ThreadId)
    | Finalize(t: ThreadId, launched: bool, next: ThreadId)
    | Close(symbol: Symbol)                              // the exchange closes a position
    | LateFill(symbol: Symbol)                           // a resting order fills after all
    | Dropped(symbol: Symbol)                            // a resting order is cancelled by someone else

  function Without(signals: seq<Symbol>, taken: set<Symbol>): seq<Symbol> {
    if signals == [] then []
    else if signals[0] in taken then Without(signals[1..], taken)
    else [signals[0]] + Without(signals[1..], taken)
  }

  /** The candidates `_on_close` goes on with, or [] when it stops. */
  function Candidates(maxPositions: int, scan: Scan): seq<Symbol> {
    var valid := Without(scan.signals, scan.cached);
    var allowed := scan.riskAllows && |scan.cached| < maxPositions;
    if valid == [] || !allowed || scan.cachedAgain.None? then []
    else
      var liveCount := |scan.cachedAgain.value|;
      if liveCount >= maxPositions || !scan.opsAllow then []
      else
        var slots := MaxInt(1, MaxInt(0, maxPositions - liveCount));
        valid[..MinInt(slots, |valid|)]
  }

  lemma {:induction false} WithoutTaken(signals: seq<Symbol>, taken: set<Symbol>)
    ensures forall x :: x in Without(signals, taken) <==> x in signals && x !in taken
  {
    if signals != [] {
      WithoutTaken(signals[1..], taken);
      assert signals == [signals[0]] + signals[1..];
    }
  }

  /** How many of the first `k` signals are for symbols not in `taken`. */
  function UntakenBefore(signals: seq<Symbol>, taken: set<Symbol>, k: nat): nat
    requires k <= |signals|
  {
    if k == 0 then 0 else UntakenBefore(signals, taken, k - 1) + (if signals[k - 1] in taken then 0 else 1)
  }

  /** The same count, with the first signal set apart. */
  lemma {:induction false} UntakenFromSecond(signals: seq<Symbol>, taken: set<Symbol>, k: nat)
    requires 0 < k <= |signals|
    ensures UntakenBefore(signals, taken, k) ==
      (if signals[0] in taken then 0 else 1) + UntakenBefore(signals[1..], taken, k - 1)
  {
    if k > 1 {
      UntakenFromSecond(signals, taken, k - 1);
      assert signals[1..][k - 2] == signals[k - 1];
    }
  }

  lemma {:induction false} WithoutCounts(signals: seq<Symbol>, taken: set<Symbol>)
    ensures |Without(signals, taken)| == UntakenBefore(signals, taken, |signals|)
  {
    if signals != [] {
      WithoutCounts(signals[1..], taken);
      UntakenFromSecond(signals, taken, |signals|);
    }
  }

  /** The signal at `k` is the one with exactly `m` untaken signals in front of it. */
  predicate RankedAt(signals: seq<Symbol>, taken: set<Symbol>, m: nat, k: nat) {
    k < |signals| && signals[k] !in taken && UntakenBefore(signals, taken, k) == m
  }

  lemma {:induction false} WithoutKeepsRank(signals: seq<Symbol>, taken: set<Symbol>, m: nat) returns (k: nat)
    requires m < |Without(signals, taken)|
    ensures RankedAt(signals, taken, m, k) && signals[k] == Without(signals, taken)[m]
  {
    if signals[0] in taken {
      k := WithoutKeepsRank(signals[1..], taken, m);
      k := k + 1;
      UntakenFromSecond(signals, taken, k);
    } else if m == 0 {
      k := 0;
    } else {
      k := WithoutKeepsRank(signals[1..], taken, m - 1);
      k := k + 1;
      UntakenFromSecond(signals, taken, k);
    }
  }

  /** A callback goes on exactly when risk and operations allow it, both cache reads show a free
      slot and some signal is for a symbol the first read does not show open.  Then its m-th
      candidate is the signal with exactly m untaken signals ranked before it, so the first is the
      best ranked, and it keeps as many as there are free slots or untaken signals. */
  lemma CandidatesFitFreeSlots(maxPositions: int, scan: Scan)
    ensures var c := Candidates(maxPositions, scan);
      && (c != [] <==> scan.riskAllows && scan.opsAllow && |scan.cached| < maxPositions
                       && scan.cachedAgain.Some? && |scan.cachedAgain.value| < maxPositions
                       && exists x :: x in scan.signals && x !in scan.cached)
      && (c != [] ==> |c| == MinInt(maxPositions - |scan.cachedAgain.value|,
                                    UntakenBefore(scan.signals, scan.cached, |scan.signals|)))
      && (forall m :: 0 <= m < |c| ==>
            exists k: nat :: RankedAt(scan.signals, scan.cached, m, k) && scan.signals[k] == c[m])
  {
    WithoutTaken(scan.signals, scan.cached);
    WithoutCounts(scan.signals, scan.cached);
    var valid, c := Without(scan.signals, scan.cached), Candidates(maxPositions, scan);
    if valid != [] {
      assert valid[0] in valid;
    }
    forall m | 0 <= m < |c|
      ensures exists k: nat :: RankedAt(scan.signals, scan.cached, m, k) && scan.signals[k] == c[m]
    {
      assert c[m] == valid[m];
      var k := WithoutKeepsRank(scan.signals, scan.cached, m);
    }
  }

  lemma {:induction false} UntakenGrows(signals: seq<Symbol>, taken: set<Symbol>, k: nat, j: nat)
    requires k <= j <= |signals|
    ensures UntakenBefore(signals, taken, k) <= UntakenBefore(signals, taken, j)
    decreases j
  {
    if k < j {
      UntakenGrows(signals, taken, k, j - 1);
    }
  }

  /** Two positions of the same rank are one, so the candidate of a rank is determined. */
  lemma {:induction false} RankIsUnique(signals: seq<Symbol>, taken: set<Symbol>, m: nat, k: nat, j: nat)
    requires RankedAt(signals, taken, m, k) && RankedAt(signals, taken, m, j) && k <= j
    ensures k == j
    decreases j
  {
    if k < j {
      UntakenGrows(signals, taken, k + 1, j);
    }
  }

  predicate At(s: State, t: ThreadId) {
    t in s.threads
  }

  predicate Possible(s: State, step: Step) {
    match step
    case Callback(t, _) => t !in s.threads
    case Resolve(t, _) => At(s, t) && s.threads[t].phase.Resolving?
    case Evaluate(t, _) => At(s, t) && s.threads[t].phase.Scanning?
    case Plan(t, _) => At(s, t) && s.threads[t].phase.Chosen?
    case TryLock(t) => At(s, t) && s.threads[t].phase.Chosen?
    case Recheck(t, rows) =>
      At(s, t) && s.threads[t].phase.Locked? && (rows.Some? ==> ActiveSymbols(rows.value) == s.open)
    case CleanUp(t, _) => At(s, t) && s.threads[t].phase.Cleared?
    case Fill(t, _) => At(s, t) && s.threads[t].phase.Ordering?
    case NoFill(t, _, _) => At(s, t) && s.threads[t].phase.Ordering?
    case Release(t) => At(s, t) && (s.threads[t].phase.Filled? || s.threads[t].phase.Rejected?)
    case Finalize(t, _, next) => At(s, t) && s.threads[t].phase.Entered? && next !in s.threads
    case Close(symbol) => symbol in s.open
    case LateFill(symbol) => symbol in s.resting
    case Dropped(symbol) => symbol in s.resting
  }

  function Move(s: State, t: ThreadId, phase: Phase): State
    requires At(s, t)
  {
    s.(threads := s.threads[t := s.threads[t].(phase := phase)])
  }

  /** `_is_position_gate_blocked`, on the live answer of the exchange. */
  predicate GateBlocked(maxPositions: int, symbol: Symbol, rows: Option<seq<PositionRow>>) {
    rows.None? || |ActiveSymbols(rows.value)| >= maxPositions || symbol in ActiveSymbols(rows.value)
  }

  function Next(maxPositions: int, s: State, step: Step): State
    requires Possible(s, step)
  {
    match step
    case Callback(t, interval) => s.(threads := s.threads[t := Thread(interval, Resolving)])
    case Resolve(t, close) =>
      var interval := s.threads[t].interval;
      if close.None? || (interval in s.lastClose && s.lastClose[interval] == close.value) then Move(s, t, Finished)
      else Move(s, t, Scanning).(lastClose := s.lastClose[interval := close.value])
    case Evaluate(t, scan) =>
      var candidates := Candidates(maxPositions, scan);
      Move(s, t, if candidates == [] then Finished else Chosen(candidates[0], |candidates| > 1))
    case Plan(t, valid) => if valid then s else Move(s, t, Finished)
    case TryLock(t) =>
      var phase := s.threads[t].phase;
      if s.lock.Some? then Move(s, t, Finished)
      else Move(s, t, Locked(phase.best, phase.more)).(lock := Some(t))
    case Recheck(t, rows) =>
      var phase := s.threads[t].phase;
      Move(s, t, if GateBlocked(maxPositions, phase.best, rows) then Rejected else Cleared(phase.best, phase.more))
    case CleanUp(t, works) =>
      var phase := s.threads[t].phase;
      Move(s, t, Ordering(phase.best, phase.more)).(
        resting := if works then s.resting - {phase.best} else s.resting)
    case Fill(t, leftovers) =>
      var phase := s.threads[t].phase;
      Move(s, t, Filled(phase.best, phase.more)).(
        open := s.open + {phase.best}, entered := s.entered + {t},
        resting := if leftovers then s.resting + {phase.best} else s.resting)
    case NoFill(t, partial, leftovers) =>
      var phase := s.threads[t].phase;
      Move(s, t, Rejected).(
        open := if partial then s.open + {phase.best} else s.open,
        resting := if leftovers then s.resting + {phase.best} else s.resting)
    case Release(t) =>
      var phase := s.threads[t].phase;
      Move(s, t, if phase.Filled? then Entered(phase.best, phase.more) else Finished).(lock := None)
    case Finalize(t, launched, next) =>
      var thread := s.threads[t];
      var done := Move(s, t, Finished);
      if !launched || !thread.phase.more then done
      else
        done.(threads := done.threads[next := Thread(thread.interval, Resolving)],
              lastClose := s.lastClose - {thread.interval}, followed := s.followed + {t})
    case Close(symbol) => s.(open := s.open - {symbol}, closings := s.closings + 1)
    case LateFill(symbol) =>
      s.(open := s.open + {symbol}, resting := s.resting - {symbol}, lateFills := s.lateFills + 1)
    case Dropped(symbol) => s.(resting := s.resting - {symbol})
  }

  predicate Run(maxPositions: int, s: State, steps: seq<Step>)
    decreases |steps|
  {
    steps == [] || (Possible(s, steps[0]) && Run(maxPositions, Next(maxPositions, s, steps[0]), steps[1..]))
  }

  function After(maxPositions: int, s: State, steps: seq<Step>): State
    requires Run(maxPositions, s, steps)
    decreases |steps|
  {
    if steps == [] then s else After(maxPositions, Next(maxPositions, s, steps[0]), steps[1..])
  }

  /** Before any callback has run: some positions may be open, nothing is in flight. */
  function Idle(open: set<Symbol>, lastClose: map<Interval, int>): State {
    State(open, None, map[], lastClose, {}, {}, {}, 0, 0)
  }

  function LateFillsIn(steps: seq<Step>): nat {
    if steps == [] then 0 else (if steps[0].LateFill? then 1 else 0) + LateFillsIn(steps[1..])
  }

  function ClosingsIn(steps: seq<Step>): nat {
    if steps == [] then 0 else (if steps[0].Close? then 1 else 0) + ClosingsIn(steps[1..])
  }

  /** The two counters of a run are the numbers of its late fills and of the positions closed in it. */
  lemma {:induction false} CountersCount(maxPositions: int, s: State, steps: seq<Step>)
    requires Run(maxPositions, s, steps)
    ensures After(maxPositions, s, steps).lateFills == s.lateFills + LateFillsIn(steps)
    ensures After(maxPositions, s, steps).closings == s.closings + ClosingsIn(steps)
    decreases |steps|
  {
    if steps != [] {
      CountersCount(maxPositions, Next(maxPositions, s, steps[0]), steps[1..]);
    }
  }

  // ---- What every step keeps --------------------------------------------------------------

  /** The re-check has passed and the order has not come back yet. */
  predicate PastRecheck(phase: Phase) {
    phase.Cleared? || phase.Ordering?
  }

  predicate Holding(phase: Phase) {
    phase.Locked? || PastRecheck(phase) || phase.Filled? || phase.Rejected?
  }

  /** The lock has exactly one holder, and only the holder is past it. */
  ghost predicate LockKept(s: State) {
    && (s.lock.Some? ==> s.lock.value in s.threads)
    && forall t :: t in s.threads ==> (Holding(s.threads[t].phase) <==> s.lock == Some(t))
  }

  /** The position bound, and what the re-check leaves behind for the order that follows it. */
  ghost predicate BoundKept(maxPositions: int, initial: nat, s: State) {
    && |s.open| <= MaxInt(initial, maxPositions) + s.lateFills
    && forall t :: t in s.threads && PastRecheck(s.threads[t].phase) ==>
         && |s.open| < maxPositions + s.lateFills
         && (s.lateFills == 0 ==> s.threads[t].phase.best !in s.open)
  }

  /** A thread enters at most once, and only a thread that entered starts a follow-up. */
  ghost predicate HistoryKept(s: State) {
    && s.followed <= s.entered
    && (forall t :: t in s.entered ==> t in s.threads)
    && forall t :: t in s.threads ==>
         match s.threads[t].phase
         case Filled(_, _) => t in s.entered && t !in s.followed
         case Entered(_, _) => t in s.entered && t !in s.followed
         case Finished => true
         case _ => t !in s.entered
  }

  /** Every entry took a slot that is still taken or has been closed; a slot that a late fill took
      from under an order in flight is one more. */
  ghost predicate FillsCounted(initial: nat, s: State) {
    && initial + |s.entered| <= |s.open| + s.closings
    && forall t :: t in s.threads && PastRecheck(s.threads[t].phase) && s.threads[t].phase.best in s.open ==>
         initial + |s.entered| < |s.open| + s.closings
  }

  /** Steps of threads that do not hold the lock and do not take it. */
  predicate OutsideLock(step: Step) {
    step.Callback? || step.Resolve? || step.Evaluate? || step.Plan? || step.Finalize?
  }

  /** Steps of the holder while it keeps the lock. */
  predicate UnderLock(step: Step) {
    step.Recheck? || step.CleanUp? || step.Fill? || step.NoFill?
  }

  /** The exchange closes positions and fills or drops resting orders; no thread moves. */
  predicate ByExchange(step: Step) {
    step.Close? || step.LateFill? || step.Dropped?
  }

  lemma OutsideKeepsLock(maxPositions: int, s: State, step: Step)
    requires LockKept(s) && Possible(s, step) && OutsideLock(step)
    ensures LockKept(Next(maxPositions, s, step))
  {
  }

  lemma HolderKeepsLock(maxPositions: int, s: State, step: Step)
    requires LockKept(s) && Possible(s, step) && UnderLock(step)
    ensures LockKept(Next(maxPositions, s, step))
  {
  }

  lemma HandOverKeepsLock(maxPositions: int, s: State, step: Step)
    requires LockKept(s) && Possible(s, step) && (step.TryLock? || step.Release?)
    ensures LockKept(Next(maxPositions, s, step))
  {
  }

  lemma StepKeepsLock(maxPositions: int, s: State, step: Step)
    requires LockKept(s) && Possible(s, step)
    ensures LockKept(Next(maxPositions, s, step))
  {
    if OutsideLock(step) {
      OutsideKeepsLock(maxPositions, s, step);
    } else if UnderLock(step) {
      HolderKeepsLock(maxPositions, s, step);
    } else if step.TryLock? || step.Release? {
      HandOverKeepsLock(maxPositions, s, step);
    } else {
      assert ByExchange(step);
    }
  }

  lemma OutsideKeepsHistory(maxPositions: int, s: State, step: Step)
    requires HistoryKept(s) && Possible(s, step) && OutsideLock(step)
    ensures HistoryKept(Next(maxPositions, s, step))
  {
  }

  lemma HolderKeepsHistory(maxPositions: int, s: State, step: Step)
    requires HistoryKept(s) && Possible(s, step) && UnderLock(step)
    ensures HistoryKept(Next(maxPositions, s, step))
  {
  }

  lemma HandOverKeepsHistory(maxPositions: int, s: State, step: Step)
    requires HistoryKept(s) && Possible(s, step) && (step.TryLock? || step.Release?)
    ensures HistoryKept(Next(maxPositions, s, step))
  {
  }

  lemma StepKeepsHistory(maxPositions: int, s: State, step: Step)
    requires HistoryKept(s) && Possible(s, step)
    ensures HistoryKept(Next(maxPositions, s, step))
  {
    if OutsideLock(step) {
      OutsideKeepsHistory(maxPositions, s, step);
    } else if UnderLock(step) {
      HolderKeepsHistory(maxPositions, s, step);
    } else if step.TryLock? || step.Release? {
      HandOverKeepsHistory(maxPositions, s, step);
    } else {
      assert ByExchange(step);
    }
  }

  lemma AddOne(a: set<Symbol>, x: Symbol)
    ensures |a + {x}| == |a| + (if x in a then 0 else 1)
  {
    if x in a {
      assert a + {x} == a;
    }
  }

  lemma RemoveOne(a: set<Symbol>, x: Symbol)
    requires x in a
    ensures |a - {x}| == |a| - 1
  {
    assert a == (a - {x}) + {x};
  }

  /** Once its order has come back, nobody is past the re-check. */
  lemma OrderIsOnly(maxPositions: int, s: State, step: Step, q: ThreadId)
    requires LockKept(s) && Possible(s, step) && (step.Fill? || step.NoFill?)
    requires q in Next(maxPositions, s, step).threads
    ensures !PastRecheck(Next(maxPositions, s, step).threads[q].phase)
  {
    assert Holding(s.threads[step.t].phase);
  }

  /** Threads outside the lock, and the lock's changing hands, open nothing and pass no re-check. */
  lemma QuietKeepsBound(maxPositions: int, initial: nat, s: State, step: Step)
    requires BoundKept(maxPositions, initial, s) && Possible(s, step)
    requires OutsideLock(step) || step.TryLock? || step.Release?
    ensures BoundKept(maxPositions, initial, Next(maxPositions, s, step))
  {
    assert Next(maxPositions, s, step).open == s.open;
  }

  lemma RecheckKeepsBound(maxPositions: int, initial: nat, s: State, step: Step)
    requires BoundKept(maxPositions, initial, s) && Possible(s, step) && (step.Recheck? || step.CleanUp?)
    ensures BoundKept(maxPositions, initial, Next(maxPositions, s, step))
  {
    assert Next(maxPositions, s, step).open == s.open;
  }

  lemma OrderKeepsBound(maxPositions: int, initial: nat, s: State, step: Step)
    requires LockKept(s) && BoundKept(maxPositions, initial, s) && Possible(s, step) && (step.Fill? || step.NoFill?)
    ensures BoundKept(maxPositions, initial, Next(maxPositions, s, step))
  {
    var next := Next(maxPositions, s, step);
    forall q | q in next.threads ensures !PastRecheck(next.threads[q].phase) {
      OrderIsOnly(maxPositions, s, step, q);
    }
    AddOne(s.open, s.threads[step.t].phase.best);
  }

  lemma ExchangeKeepsBound(maxPositions: int, initial: nat, s: State, step: Step)
    requires BoundKept(maxPositions, initial, s) && Possible(s, step) && ByExchange(step)
    ensures BoundKept(maxPositions, initial, Next(maxPositions, s, step))
  {
    AddOne(s.open, step.symbol);
    if step.Close? { RemoveOne(s.open, step.symbol); }
  }

  lemma StepKeepsBound(maxPositions: int, initial: nat, s: State, step: Step)
    requires LockKept(s) && BoundKept(maxPositions, initial, s) && Possible(s, step)
    ensures BoundKept(maxPositions, initial, Next(maxPositions, s, step))
  {
    if OutsideLock(step) || step.TryLock? || step.Release? {
      QuietKeepsBound(maxPositions, initial, s, step);
    } else if step.Recheck? || step.CleanUp? {
      RecheckKeepsBound(maxPositions, initial, s, step);
    } else if ByExchange(step) {
      ExchangeKeepsBound(maxPositions, initial, s, step);
    } else {
      OrderKeepsBound(maxPositions, initial, s, step);
    }
  }

  lemma OrderCounts(maxPositions: int, initial: nat, s: State, step: Step)
    requires LockKept(s) && HistoryKept(s) && FillsCounted(initial, s) && Possible(s, step)
    requires step.Fill? || step.NoFill?
    ensures FillsCounted(initial, Next(maxPositions, s, step))
  {
    var next := Next(maxPositions, s, step);
    forall q | q in next.threads ensures !PastRecheck(next.threads[q].phase) {
      OrderIsOnly(maxPositions, s, step, q);
    }
    AddOne(s.open, s.threads[step.t].phase.best);
    assert step.t !in s.entered;
    assert step.Fill? ==> |next.entered| == |s.entered| + 1;
  }

  lemma ExchangeCounts(maxPositions: int, initial: nat, s: State, step: Step)
    requires FillsCounted(initial, s) && Possible(s, step) && ByExchange(step)
    ensures FillsCounted(initial, Next(maxPositions, s, step))
  {
    AddOne(s.open, step.symbol);
    if step.Close? { RemoveOne(s.open, step.symbol); }
  }

  /** Whoever gets past the re-check does so for a symbol that is not open. */
  lemma PastRecheckAfter(maxPositions: int, s: State, step: Step, q: ThreadId)
    requires Possible(s, step) && !ByExchange(step) && !step.Fill? && !step.NoFill?
    ensures var next := Next(maxPositions, s, step);
      q in next.threads && PastRecheck(next.threads[q].phase) && next.threads[q].phase.best in s.open ==>
        q in s.threads && PastRecheck(s.threads[q].phase) && s.threads[q].phase.best in s.open
  {
  }

  lemma StepCountsFills(maxPositions: int, initial: nat, s: State, step: Step)
    requires LockKept(s) && HistoryKept(s) && FillsCounted(initial, s) && Possible(s, step)
    ensures FillsCounted(initial, Next(maxPositions, s, step))
  {
    if step.Fill? || step.NoFill? {
      OrderCounts(maxPositions, initial, s, step);
    } else if ByExchange(step) {
      ExchangeCounts(maxPositions, initial, s, step);
    } else {
      var next := Next(maxPositions, s, step);
      assert next.open == s.open && next.entered == s.entered && next.closings == s.closings;
      forall q | q in next.threads && PastRecheck(next.threads[q].phase) && next.threads[q].phase.best in next.open
        ensures initial + |next.entered| < |next.open| + next.closings
      {
        PastRecheckAfter(maxPositions, s, step, q);
      }
    }
  }

  ghost predicate Invariant(maxPositions: int, initial: nat, s: State) {
    LockKept(s) && HistoryKept(s) && BoundKept(maxPositions, initial, s) && FillsCounted(initial, s)
  }

  lemma {:induction false} RunKeepsInvariant(maxPositions: int, initial: nat, s: State, steps: seq<Step>)
    requires Invariant(maxPositions, initial, s) && Run(maxPositions, s, steps)
    ensures Invariant(maxPositions, initial, After(maxPositions, s, steps))
    decreases |steps|
  {
    if steps != [] {
      StepKeepsLock(maxPositions, s, steps[0]);
      StepKeepsHistory(maxPositions, s, steps[0]);
      StepKeepsBound(maxPositions, initial, s, steps[0]);
      StepCountsFills(maxPositions, initial, s, steps[0]);
      RunKeepsInvariant(maxPositions, initial, Next(maxPositions, s, steps[0]), steps[1..]);
    }
  }

  // ---- The main results -------------------------------------------------------------------

  /** In every interleaving, open positions stay within max(initial count, max_positions) plus
      the fills that land after their attempt was given up. */
  lemma PositionBound(maxPositions: int, open: set<Symbol>, lastClose: map<Interval, int>, steps: seq<Step>)
    requires Run(maxPositions, Idle(open, lastClose), steps)
    ensures var s := After(maxPositions, Idle(open, lastClose), steps);
      |s.open| <= MaxInt(|open|, maxPositions) + s.lateFills && s.lateFills == LateFillsIn(steps)
  {
    RunKeepsInvariant(maxPositions, |open|, Idle(open, lastClose), steps);
    CountersCount(maxPositions, Idle(open, lastClose), steps);
  }

  /** As long as no fill was late, no order is ever sent or in flight for a symbol that is already
      open, so no fill, whole or partial, enters one. */
  lemma NeverEntersOpenSymbol(maxPositions: int, open: set<Symbol>, lastClose: map<Interval, int>,
                              steps: seq<Step>, t: ThreadId)
    requires Run(maxPositions, Idle(open, lastClose), steps)
    requires var s := After(maxPositions, Idle(open, lastClose), steps);
      t in s.threads && PastRecheck(s.threads[t].phase) && s.lateFills == 0
    ensures var s := After(maxPositions, Idle(open, lastClose), steps);
      s.threads[t].phase.best !in s.open && |s.open| < maxPositions
  {
    RunKeepsInvariant(maxPositions, |open|, Idle(open, lastClose), steps);
  }

  /** The step gets a callback or follow-up of `interval` past the candle dedupe. */
  predicate GetsPast(maxPositions: int, s: State, step: Step, interval: Interval)
    requires Possible(s, step)
  {
    && step.Resolve? && s.threads[step.t].interval == interval
    && Next(maxPositions, s, step).threads[step.t].phase.Scanning?
  }

  /** How often a callback or follow-up of `interval` gets past the candle dedupe. */
  function Passes(maxPositions: int, s: State, steps: seq<Step>, interval: Interval): nat
    requires Run(maxPositions, s, steps)
    decreases |steps|
  {
    if steps == [] then 0
    else
      var next := Next(maxPositions, s, steps[0]);
      Passes(maxPositions, next, steps[1..], interval) +
      (if GetsPast(maxPositions, s, steps[0], interval) then 1 else 0)
  }

  /** Throughout the run the anchor candle of `interval` is the one that closed at `close`. */
  predicate OneCandle(maxPositions: int, s: State, steps: seq<Step>, interval: Interval, close: int)
    requires Run(maxPositions, s, steps)
    decreases |steps|
  {
    steps == [] ||
    (&& (steps[0].Resolve? && s.threads[steps[0].t].interval == interval ==> steps[0].close in {None, Some(close)})
     && OneCandle(maxPositions, Next(maxPositions, s, steps[0]), steps[1..], interval, close))
  }

  function Seen(s: State, interval: Interval, close: int): nat {
    if interval in s.lastClose && s.lastClose[interval] == close then 1 else 0
  }

  /** Only a reset by a new follow-up lets the same candle pass again. */
  lemma PassNeedsFollowUp(maxPositions: int, s: State, step: Step, interval: Interval, close: int)
    requires HistoryKept(s) && Possible(s, step)
    requires step.Resolve? && s.threads[step.t].interval == interval ==> step.close in {None, Some(close)}
    ensures var next := Next(maxPositions, s, step);
      (if GetsPast(maxPositions, s, step, interval) then 1 else 0) + Seen(s, interval, close) + |s.followed|
      <= |next.followed| + Seen(next, interval, close)
  {
    if step.Finalize? {
      assert |s.followed + {step.t}| == |s.followed| + 1;
    } else {
      assert Next(maxPositions, s, step).followed == s.followed;
    }
  }

  lemma {:induction false} PassesNeedFollowUps(maxPositions: int, s: State, steps: seq<Step>,
                                               interval: Interval, close: int)
    requires Run(maxPositions, s, steps) && HistoryKept(s)
    requires OneCandle(maxPositions, s, steps, interval, close)
    ensures var end := After(maxPositions, s, steps);
      Passes(maxPositions, s, steps, interval) + Seen(s, interval, close) + |s.followed|
      <= |end.followed| + Seen(end, interval, close)
    decreases |steps|
  {
    if steps != [] {
      StepKeepsHistory(maxPositions, s, steps[0]);
      PassNeedsFollowUp(maxPositions, s, steps[0], interval, close);
      PassesNeedFollowUps(maxPositions, Next(maxPositions, s, steps[0]), steps[1..], interval, close);
    }
  }

  lemma SubsetSize<T>(a: set<T>, b: set<T>)
    requires a <= b
    ensures |a| <= |b|
  {
    assert b == a + (b - a);
  }

  /** However stale the cache, one candle close is evaluated at most once per free slot, plus
      once, plus once per position the exchange closed meanwhile and once per late fill.  With
      neither the follow-up chain therefore ends after at most max_positions - open follow-ups. */
  lemma FollowUpsTerminate(maxPositions: int, open: set<Symbol>, lastClose: map<Interval, int>, steps: seq<Step>,
                           interval: Interval, close: int)
    requires Run(maxPositions, Idle(open, lastClose), steps)
    requires OneCandle(maxPositions, Idle(open, lastClose), steps, interval, close)
    ensures var s := After(maxPositions, Idle(open, lastClose), steps);
      && |s.followed| <= MaxInt(0, maxPositions - |open|) + ClosingsIn(steps) + LateFillsIn(steps)
      && Passes(maxPositions, Idle(open, lastClose), steps, interval) <= 1 + |s.followed|
  {
    var s := After(maxPositions, Idle(open, lastClose), steps);
    RunKeepsInvariant(maxPositions, |open|, Idle(open, lastClose), steps);
    PassesNeedFollowUps(maxPositions, Idle(open, lastClose), steps, interval, close);
    SubsetSize(s.followed, s.entered);
    CountersCount(maxPositions, Idle(open, lastClose), steps);
  }

  // ---- What single steps do ---------------------------------------------------------------

  /** An evaluation chooses the best-ranked signal that is not seen open, and remembers that more are
      left exactly when a second one is there and a second slot is free. */
  lemma EvaluateChoosesBest(maxPositions: int, s: State, t: ThreadId, scan: Scan, k: nat)
    requires Possible(s, Evaluate(t, scan)) && RankedAt(scan.signals, scan.cached, 0, k)
    ensures var phase := Next(maxPositions, s, Evaluate(t, scan)).threads[t].phase;
      && (phase.Chosen? <==> scan.riskAllows && scan.opsAllow && |scan.cached| < maxPositions
                             && scan.cachedAgain.Some? && |scan.cachedAgain.value| < maxPositions)
      && (phase.Chosen? ==> phase.best == scan.signals[k])
      && (phase.Chosen? ==>
            (phase.more <==> maxPositions - |scan.cachedAgain.value| > 1
                             && UntakenBefore(scan.signals, scan.cached, |scan.signals|) > 1))
  {
    CandidatesFitFreeSlots(maxPositions, scan);
    assert scan.signals[k] in scan.signals && scan.signals[k] !in scan.cached;
    var c := Candidates(maxPositions, scan);
    if c != [] {
      var j: nat :| RankedAt(scan.signals, scan.cached, 0, j) && scan.signals[j] == c[0];
      RankIsUnique(scan.signals, scan.cached, 0, MinInt(k, j), MaxInt(k, j));
    }
  }

  /** The re-check blocks exactly when the exchange does not answer, shows no free slot or shows the
      symbol open. */
  lemma RecheckClearsIff(maxPositions: int, s: State, t: ThreadId, rows: Option<seq<PositionRow>>)
    requires Possible(s, Recheck(t, rows))
    ensures Next(maxPositions, s, Recheck(t, rows)).threads[t].phase.Cleared? <==>
      rows.Some? && |s.open| < maxPositions && s.threads[t].phase.best !in s.open
  {
  }

  /** A callback or follow-up passes the dedupe exactly when there is an anchor candle and it is not
      the one last evaluated. */
  lemma ResolvePassesIff(maxPositions: int, s: State, t: ThreadId, close: Option<int>)
    requires Possible(s, Resolve(t, close))
    ensures var interval, next := s.threads[t].interval, Next(maxPositions, s, Resolve(t, close));
      && (next.threads[t].phase.Scanning? <==>
            close.Some? && !(interval in s.lastClose && s.lastClose[interval] == close.value))
      && (next.threads[t].phase.Scanning? ==> next.lastClose == s.lastClose[interval := close.value])
      && (!next.threads[t].phase.Scanning? ==> next.threads[t].phase.Finished? && next.lastClose == s.lastClose)
  {
  }

  /** An entry with candidates left starts a follow-up, and the follow-up gets past the dedupe for
      the very candle that was just evaluated. */
  lemma FollowUpSeesSameCandle(maxPositions: int, s: State, t: ThreadId, launched: bool, next: ThreadId, close: int)
    requires Possible(s, Finalize(t, launched, next))
    ensures var after := Next(maxPositions, s, Finalize(t, launched, next));
      && after.threads[t].phase.Finished?
      && (next in after.threads <==> launched && s.threads[t].phase.more)
      && (next in after.threads ==>
            Possible(after, Resolve(next, Some(close)))
            && Next(maxPositions, after, Resolve(next, Some(close))).threads[next].phase.Scanning?)
  {
  }

  /** A clean-up that works leaves no old order of the symbol resting. */
  lemma CleanUpClears(maxPositions: int, s: State, t: ThreadId, works: bool)
    requires Possible(s, CleanUp(t, works))
    ensures var best, after := s.threads[t].phase.best, Next(maxPositions, s, CleanUp(t, works));
      && after.threads[t].phase == Ordering(best, s.threads[t].phase.more)
      && (forall x :: x in after.resting <==> x in s.resting && !(works && x == best))
  {
  }

  /** What an order leaves behind at the exchange: its symbol is open afterwards exactly when it was,
      or the order filled or filled in part; it rests exactly when it did, or could not be removed. */
  lemma OrderLeaves(maxPositions: int, s: State, step: Step, x: Symbol)
    requires Possible(s, step) && (step.Fill? || step.NoFill?)
    ensures var best, after := s.threads[step.t].phase.best, Next(maxPositions, s, step);
      && (x in after.open <==> x in s.open || (x == best && (step.Fill? || step.partial)))
      && (x in after.resting <==> x in s.resting || (x == best && step.leftovers))
      && (step.t in after.entered <==> step.t in s.entered || step.Fill?)
      && (after.threads[step.t].phase.Filled? <==> step.Fill?)
  {
  }

  /** What the exchange does on its own: a closing takes a symbol out of the open ones, a late fill
      moves it there from the resting ones, and a dropped order no longer rests. */
  lemma ExchangeMoves(maxPositions: int, s: State, step: Step, x: Symbol)
    requires Possible(s, step) && (step.Close? || step.LateFill? || step.Dropped?)
    ensures var after := Next(maxPositions, s, step);
      && (x in after.open <==> if x == step.symbol && !step.Dropped? then step.LateFill? else x in s.open)
      && (x in after.resting <==> x in s.resting && (x != step.symbol || step.Close?))
      && after.threads == s.threads && after.lock == s.lock
  {
  }

  /** A thread that has chosen goes on exactly with a valid plan and a free lock, and ends an attempt
      with its entry exactly when it was filled; the lock is its own in between. */
  lemma AttemptGoesOnIff(maxPositions: int, s: State, step: Step)
    requires Possible(s, step) && (step.Plan? || step.TryLock? || step.Release?)
    ensures var before, after := s.threads[step.t].phase, Next(maxPositions, s, step);
      && (after.threads[step.t].phase.Finished? <==>
            match step case Plan(_, valid) => !valid case TryLock(_) => s.lock.Some? case _ => !before.Filled?)
      && (after.lock == Some(step.t) <==>
            !step.Release? && (s.lock == Some(step.t) || (s.lock.None? && step.TryLock?)))
      && (!after.threads[step.t].phase.Finished? ==>
            after.threads[step.t].phase.best == before.best && after.threads[step.t].phase.more == before.more)
  {
  }

  // ---- The exact condition for going over the limit ---------------------------------------

  lemma {:induction false} Compose(maxPositions: int, s: State, first: seq<Step>, second: seq<Step>)
    requires Run(maxPositions, s, first) && Run(maxPositions, After(maxPositions, s, first), second)
    ensures Run(maxPositions, s, first + second)
    ensures After(maxPositions, s, first + second) == After(maxPositions, After(maxPositions, s, first), second)
    decreases |first|
  {
    if first == [] {
      assert first + second == second;
    } else {
      Compose(maxPositions, Next(maxPositions, s, first[0]), first[1..], second);
      assert (first + second)[1..] == first[1..] + second;
    }
  }

  ghost predicate Reaches(maxPositions: int, s: State, end: State) {
    exists steps: seq<Step> :: Run(maxPositions, s, steps) && After(maxPositions, s, steps) == end
  }

  lemma ReachesNext(maxPositions: int, s: State, mid: State, step: Step)
    requires Reaches(maxPositions, s, mid) && Possible(mid, step)
    ensures Reaches(maxPositions, s, Next(maxPositions, mid, step))
  {
    var steps: seq<Step> :| Run(maxPositions, s, steps) && After(maxPositions, s, steps) == mid;
    assert Run(maxPositions, mid, [step]);
    Compose(maxPositions, s, steps, [step]);
    assert Run(maxPositions, s, steps + [step]);
  }

  // What the exchange can do on its own ...

  lemma {:induction false} ExchangeOnlyFillsResting(maxPositions: int, s: State, steps: seq<Step>)
    requires Run(maxPositions, s, steps) && forall step :: step in steps ==> ByExchange(step)
    ensures After(maxPositions, s, steps).open <= s.open + s.resting
    decreases |steps|
  {
    if steps != [] {
      assert steps[0] in steps;
      ExchangeOnlyFillsResting(maxPositions, Next(maxPositions, s, steps[0]), steps[1..]);
    }
  }

  function AllFilled(s: State): State {
    s.(open := s.open + s.resting, resting := {}, lateFills := s.lateFills + |s.resting|)
  }

  lemma FillOneFirst(maxPositions: int, s: State, x: Symbol)
    requires x in s.resting
    ensures AllFilled(Next(maxPositions, s, LateFill(x))) == AllFilled(s)
  {
    RemoveOne(s.resting, x);
    assert (s.open + {x}) + (s.resting - {x}) == s.open + s.resting;
  }

  lemma RunFirst(maxPositions: int, s: State, step: Step, rest: seq<Step>)
    requires Possible(s, step) && Run(maxPositions, Next(maxPositions, s, step), rest)
    ensures Run(maxPositions, s, [step] + rest)
    ensures After(maxPositions, s, [step] + rest) == After(maxPositions, Next(maxPositions, s, step), rest)
  {
    assert ([step] + rest)[1..] == rest;
  }

  lemma {:induction false} ExchangeCanFillAll(maxPositions: int, s: State) returns (steps: seq<Step>)
    ensures (forall step :: step in steps ==> ByExchange(step)) && Run(maxPositions, s, steps)
    ensures After(maxPositions, s, steps) == AllFilled(s)
    decreases |s.resting|
  {
    if s.resting == {} {
      assert s.open + s.resting == s.open;
      steps := [];
    } else {
      var x :| x in s.resting;
      FillOneFirst(maxPositions, s, x);
      var next := Next(maxPositions, s, LateFill(x));
      assert |next.resting| < |s.resting| by { RemoveOne(s.resting, x); }
      var rest := ExchangeCanFillAll(maxPositions, next);
      RunFirst(maxPositions, s, LateFill(x), rest);
      steps := [LateFill(x)] + rest;
    }
  }

  /** In every state, what happens at the exchange alone can take the account over any limit if and
      only if the open symbols and those of the resting orders together are more than it. */
  lemma ExchangeCanExceedIff(maxPositions: int, s: State, limit: int)
    ensures (exists steps: seq<Step> ::
               && (forall step :: step in steps ==> ByExchange(step))
               && Run(maxPositions, s, steps) && |After(maxPositions, s, steps).open| > limit)
            <==> |s.open + s.resting| > limit
  {
    if |s.open + s.resting| > limit {
      var steps := ExchangeCanFillAll(maxPositions, s);
      assert |After(maxPositions, s, steps).open| > limit;
    }
    forall steps: seq<Step> |
      (forall step :: step in steps ==> ByExchange(step)) && Run(maxPositions, s, steps)
      ensures |After(maxPositions, s, steps).open| <= |s.open + s.resting|
    {
      ExchangeOnlyFillsResting(maxPositions, s, steps);
      SubsetSize(After(maxPositions, s, steps).open, s.open + s.resting);
    }
  }

  // ... and what the bot leaves behind for it.

  /** A symbol can only start to rest when an attempt ends with leftovers: a limit order that no
      cancel removed. */
  lemma RestingComesFromLeftovers(maxPositions: int, s: State, step: Step, x: Symbol)
    requires Possible(s, step) && x !in s.resting
    ensures x in Next(maxPositions, s, step).resting <==>
      && (step.Fill? || step.NoFill?) && step.leftovers && s.threads[step.t].phase.best == x
  {
  }

  lemma {:induction false} RowsFor(open: set<Symbol>) returns (rows: seq<PositionRow>)
    requires "" !in open
    ensures ActiveSymbols(rows) == open
    decreases |open|
  {
    if open == {} {
      rows := [];
    } else {
      var x :| x in open;
      RemoveOne(open, x);
      var rest := RowsFor(open - {x});
      var row := PositionRow(Some(x), Some(1.0));
      rows := [row] + rest;
      assert ActiveSymbols(rows) == {x} + ActiveSymbols(rest) by {
        assert rows[0] == row && IsActive(row);
        assert forall r :: r in rows <==> r == row || r in rest;
        assert forall y :: y in ActiveSymbols(rows) <==> y == x || y in ActiveSymbols(rest);
      }
    }
  }

  function NextClose(s: State, interval: Interval): int {
    if interval in s.lastClose then s.lastClose[interval] + 1 else 0
  }

  /** A free thread gets its candidate chosen, */
  lemma ReachesChosen(maxPositions: int, s: State, mid: State, t: ThreadId, interval: Interval, symbol: Symbol)
    requires Reaches(maxPositions, s, mid) && t !in mid.threads && maxPositions > 0
    ensures Reaches(maxPositions, s, mid.(threads := mid.threads[t := Thread(interval, Chosen(symbol, false))],
                                          lastClose := mid.lastClose[interval := NextClose(mid, interval)]))
  {
    var scan := Scan({}, Some({}), [symbol], true, true);
    assert Without([symbol][1..], {}) == [] && Candidates(maxPositions, scan) == [symbol];
    var close := NextClose(mid, interval);
    ReachesNext(maxPositions, s, mid, Callback(t, interval));
    var m := Next(maxPositions, mid, Callback(t, interval));
    ReachesNext(maxPositions, s, m, Resolve(t, Some(close)));
    m := Next(maxPositions, m, Resolve(t, Some(close)));
    ReachesNext(maxPositions, s, m, Evaluate(t, scan));
    m := Next(maxPositions, m, Evaluate(t, scan));
    assert m.threads == mid.threads[t := Thread(interval, Chosen(symbol, false))];
  }

  /** and, with a slot free and the lock too, an order for it in flight. */
  lemma ReachesOrder(maxPositions: int, s: State, mid: State, t: ThreadId, interval: Interval, symbol: Symbol)
    requires Reaches(maxPositions, s, mid)
    requires |mid.open| < maxPositions && symbol !in mid.open && symbol !in mid.resting && "" !in mid.open
    requires mid.lock.None? && t !in mid.threads
    ensures Reaches(maxPositions, s, mid.(threads := mid.threads[t := Thread(interval, Ordering(symbol, false))],
                                          lock := Some(t),
                                          lastClose := mid.lastClose[interval := NextClose(mid, interval)]))
  {
    ReachesChosen(maxPositions, s, mid, t, interval, symbol);
    var m := mid.(threads := mid.threads[t := Thread(interval, Chosen(symbol, false))],
                  lastClose := mid.lastClose[interval := NextClose(mid, interval)]);
    ReachesNext(maxPositions, s, m, TryLock(t));
    m := Next(maxPositions, m, TryLock(t));
    var rows := RowsFor(mid.open);
    ReachesNext(maxPositions, s, m, Recheck(t, Some(rows)));
    m := Next(maxPositions, m, Recheck(t, Some(rows)));
    ReachesNext(maxPositions, s, m, CleanUp(t, true));
    m := Next(maxPositions, m, CleanUp(t, true));
    assert m.threads == mid.threads[t := Thread(interval, Ordering(symbol, false))];
    assert m.resting == mid.resting;
  }

  /** Nothing in flight, `open` open and an order resting for each of `resting`. */
  ghost predicate Parked(s: State, open: set<Symbol>, resting: set<Symbol>) {
    && s.open == open && s.resting == resting && s.lock.None? && s.lateFills == 0
    && forall t :: t in s.threads ==> t < |resting|
  }

  /** While a slot is free, attempts can be given up one after the other, each with its cancel failed. */
  lemma {:induction false} ReachesParked(maxPositions: int, open: set<Symbol>, resting: set<Symbol>)
    returns (end: State)
    requires |open| < maxPositions && "" !in open && resting !! open
    ensures Reaches(maxPositions, Idle(open, map[]), end) && Parked(end, open, resting)
    decreases |resting|
  {
    var s0 := Idle(open, map[]);
    if resting == {} {
      assert Run(maxPositions, s0, []) && After(maxPositions, s0, []) == s0;
      end := s0;
    } else {
      var x :| x in resting;
      RemoveOne(resting, x);
      var mid := ReachesParked(maxPositions, open, resting - {x});
      var t := |resting| - 1;
      ReachesOrder(maxPositions, s0, mid, t, "15m", x);
      var m := mid.(threads := mid.threads[t := Thread("15m", Ordering(x, false))], lock := Some(t),
                    lastClose := mid.lastClose["15m" := NextClose(mid, "15m")]);
      ReachesNext(maxPositions, s0, m, NoFill(t, false, true));
      m := Next(maxPositions, m, NoFill(t, false, true));
      ReachesNext(maxPositions, s0, m, Release(t));
      end := Next(maxPositions, m, Release(t));
      assert (resting - {x}) + {x} == resting;
    }
  }

  /** The last slot is then filled as usual. */
  lemma ReachesFull(maxPositions: int, open: set<Symbol>, resting: set<Symbol>, last: Symbol) returns (end: State)
    requires |open| + 1 == maxPositions && "" !in open && last !in open
    requires resting !! open + {last}
    ensures Reaches(maxPositions, Idle(open, map[]), end)
    ensures end.open == open + {last} && end.resting == resting && end.lateFills == 0
  {
    var s0 := Idle(open, map[]);
    var mid := ReachesParked(maxPositions, open, resting);
    var t := |resting|;
    ReachesOrder(maxPositions, s0, mid, t, "1h", last);
    var m := mid.(threads := mid.threads[t := Thread("1h", Ordering(last, false))], lock := Some(t),
                  lastClose := mid.lastClose["1h" := NextClose(mid, "1h")]);
    ReachesNext(maxPositions, s0, m, Fill(t, false));
    end := Next(maxPositions, m, Fill(t, false));
  }

  lemma DisjointSize<T>(a: set<T>, b: set<T>)
    requires a !! b
    ensures |a + b| == |a| + |b|
  {
  }

  /** The bound with its allowance for late fills is attained for every max_positions and every
      number of late fills: whatever set of symbols is left resting while one slot is free, there
      is a run that fills the slot and then every one of them. */
  lemma LateFillBoundIsTight(maxPositions: int, open: set<Symbol>, resting: set<Symbol>, last: Symbol)
    requires |open| + 1 == maxPositions && "" !in open && last !in open
    requires resting !! open + {last}
    ensures exists end ::
      (Reaches(maxPositions, Idle(open, map[]), end)
       && end.lateFills == |resting| && |end.open| == maxPositions + |resting|)
  {
    var s0 := Idle(open, map[]);
    var full := ReachesFull(maxPositions, open, resting, last);
    var before: seq<Step> :| Run(maxPositions, s0, before) && After(maxPositions, s0, before) == full;
    var fills := ExchangeCanFillAll(maxPositions, full);
    Compose(maxPositions, s0, before, fills);
    var end := After(maxPositions, full, fills);
    assert Run(maxPositions, s0, before + fills) && After(maxPositions, s0, before + fills) == end;
    AddOne(open, last);
    DisjointSize(open + {last}, resting);
  }
}
