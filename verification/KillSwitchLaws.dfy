/** Laws of the kill switches over whole runs: when the gate opens, what a deadline is, which
    suspensions end, and which never do. */
module KillSwitchLaws {
  import opened Common
  import opened KillSwitches

  // ---- The gate ---------------------------------------------------------------------------

  lemma RuledElsewhere(cfg: Settings, s: State, before: Suspensions, q: Reason, now: real, clock: Clock, r: Reason)
    ensures var after := Ruled(cfg, s, before, q, now, clock);
      r != q ==> (r in after <==> r in before) && (r in after ==> after[r] == before[r])
  {
  }

  /** What one evaluation does to one reason, whatever the others do. */
  lemma EvaluatedAt(cfg: Settings, s: State, now: real, clock: Clock, r: Reason)
    ensures var after := Evaluated(cfg, s, now, clock).suspensions;
      && (r in after <==> r in s.suspensions || Trips(cfg, s, r, now))
      && (r in after ==> after[r] == if Trips(cfg, s, r, now) then Renewed(s.suspensions, r, Deadline(cfg, clock(r)))
                                     else s.suspensions[r])
  {
    var s1 := Ruled(cfg, s, s.suspensions, ConsecutiveErrors, now, clock);
    var s2 := Ruled(cfg, s, s1, ApiDegraded, now, clock);
    var s3 := Ruled(cfg, s, s2, OrderFailures, now, clock);
    var s4 := Ruled(cfg, s, s3, ProtectionFailures, now, clock);
    RuledElsewhere(cfg, s, s.suspensions, ConsecutiveErrors, now, clock, r);
    RuledElsewhere(cfg, s, s1, ApiDegraded, now, clock, r);
    RuledElsewhere(cfg, s, s2, OrderFailures, now, clock, r);
    RuledElsewhere(cfg, s, s3, ProtectionFailures, now, clock, r);
    RuledElsewhere(cfg, s, s4, SchedulerStale, now, clock, r);
  }

  /** With kill switches on, the gate opens exactly when every suspension's time has elapsed and
      no enabled rule is tripped once the elapsed counters have restarted. */
  lemma GateOpensIff(cfg: Settings, s: State, now: real, clock: Clock)
    requires cfg.enabled
    ensures GateOpen(cfg, s, now, clock) <==>
      && (forall r :: r in s.suspensions ==> Elapsed(s.suspensions, r, now))
      && (forall r: Reason :: !Trips(cfg, Expired(s, now), r, now))
  {
    var e := Expired(s, now);
    var after := Evaluated(cfg, e, now, clock).suspensions;
    forall r: Reason
      ensures r in after <==> (r in s.suspensions && !Elapsed(s.suspensions, r, now)) || Trips(cfg, e, r, now)
    {
      EvaluatedAt(cfg, e, now, clock, r);
    }
    if r: Reason :| r in after {
    } else {
      assert after.Keys == {};
    }
  }

  /** ... and then nothing is tripped in the state it leaves, and nothing is suspended. */
  lemma OpenGateIsClean(cfg: Settings, s: State, now: real, clock: Clock, r: Reason)
    requires cfg.enabled && GateOpen(cfg, s, now, clock)
    ensures var after := Next(cfg, s, Gate(now, clock));
      after.suspensions == map[] && !Trips(cfg, after, r, now)
  {
    GateOpensIff(cfg, s, now, clock);
  }

  // ---- Steps ------------------------------------------------------------------------------

  /** The clock stamp with which this event (re)activates `r`, if it does. */
  function TripStamp(cfg: Settings, s: State, e: Event, r: Reason): Option<real> {
    if Evaluates(e) && Trips(cfg, Prepared(cfg, s, e), r, e.now) then Some(e.clock(r))
    else if e.Orphan? && cfg.pauseOnOrphan && r == OrphanUnrecoverable then Some(e.stamp)
    else None
  }

  /** The time at which this event expires elapsed suspensions, if it does. */
  function ExpiresAt(cfg: Settings, e: Event): Option<real> {
    if e.Heartbeat? || e.Peek? || (e.Gate? && cfg.enabled) then Some(e.now) else None
  }

  /** The event takes `r` out of the map: its time has elapsed, or new polls lift a stale scheduler. */
  predicate Leaves(cfg: Settings, s: State, e: Event, r: Reason) {
    || (e.Heartbeat? && r == SchedulerStale && e.eventCount > s.lastSeen)
    || (ExpiresAt(cfg, e).Some? && Elapsed(s.suspensions, r, ExpiresAt(cfg, e).value))
  }

  lemma PreparedAt(cfg: Settings, s: State, e: Event, r: Reason)
    requires !e.Orphan?
    ensures var after := Prepared(cfg, s, e).suspensions;
      && (r in after <==> r in s.suspensions && !Leaves(cfg, s, e, r))
      && (r in after ==> after[r] == s.suspensions[r])
  {
  }

  /** What one event does to one suspension: elapsed ones leave, new polls lift a stale scheduler,
      and then a tripped rule sets or renews the deadline. */
  lemma StepOnReason(cfg: Settings, s: State, e: Event, r: Reason)
    ensures var after, stamp := Next(cfg, s, e).suspensions, TripStamp(cfg, s, e, r);
      && (r in after <==> (r in s.suspensions && !Leaves(cfg, s, e, r)) || stamp.Some?)
      && (r in after && stamp.None? ==> after[r] == s.suspensions[r])
      && (stamp.Some? ==> after[r] == Renewed(if Leaves(cfg, s, e, r) then map[] else s.suspensions, r,
                                              Deadline(cfg, stamp.value)))
  {
    if !e.Orphan? {
      PreparedAt(cfg, s, e, r);
      if Evaluates(e) {
        EvaluatedAt(cfg, Prepared(cfg, s, e), e.now, e.clock, r);
      }
    }
  }

  /** A counter suspension whose time has elapsed leaves a zero counter behind, so the pass that
      lifts it cannot arm it again. */
  lemma LiftedCounterIsZero(cfg: Settings, s: State, e: Event, r: Reason)
    requires IsCounter(r) && Leaves(cfg, s, e, r)
    ensures r !in Next(cfg, s, e).suspensions && Count(Next(cfg, s, e), r) == 0
  {
    StepOnReason(cfg, s, e, r);
  }

  /** While a suspension stays in the map its deadline never moves back. */
  lemma DeadlineNeverDecreases(cfg: Settings, s: State, e: Event, r: Reason)
    requires r in s.suspensions && r in Next(cfg, s, e).suspensions
    requires s.suspensions[r].Some? && Next(cfg, s, e).suspensions[r].Some?
    requires ExpiresAt(cfg, e).Some? && TripStamp(cfg, s, e, r).Some? ==>
      ExpiresAt(cfg, e).value <= TripStamp(cfg, s, e, r).value
    ensures s.suspensions[r].value <= Next(cfg, s, e).suspensions[r].value
  {
    StepOnReason(cfg, s, e, r);
  }

  // ---- Runs -------------------------------------------------------------------------------

  /** The latest stamp with which `r` was activated in a run. */
  function LatestTrip(cfg: Settings, s: State, events: seq<Event>, r: Reason): Option<real> {
    if events == [] then None
    else
      var before := events[..|events| - 1];
      var stamp := TripStamp(cfg, After(cfg, s, before), events[|events| - 1], r);
      if stamp.Some? then stamp else LatestTrip(cfg, s, before, r)
  }

  /** Activation stamps never run backwards. */
  ghost predicate StampsInOrder(cfg: Settings, s: State, events: seq<Event>, r: Reason) {
    events == [] ||
    var before := events[..|events| - 1];
    && StampsInOrder(cfg, s, before, r)
    && var stamp := TripStamp(cfg, After(cfg, s, before), events[|events| - 1], r);
       stamp.Some? && LatestTrip(cfg, s, before, r).Some? ==> LatestTrip(cfg, s, before, r).value <= stamp.value
  }

  lemma DeadlineStep(cfg: Settings, t: State, e: Event, r: Reason, latest: Option<real>)
    requires cfg.suspendSec > 0.0
    requires r in t.suspensions ==> latest.Some? && t.suspensions[r] == Some(latest.value + cfg.suspendSec)
    requires var stamp := TripStamp(cfg, t, e, r); stamp.Some? && latest.Some? ==> latest.value <= stamp.value
    ensures var susp, stamp := Next(cfg, t, e).suspensions, TripStamp(cfg, t, e, r);
      r in susp ==>
        if stamp.Some? then susp[r] == Some(stamp.value + cfg.suspendSec)
        else latest.Some? && susp[r] == Some(latest.value + cfg.suspendSec)
  {
    StepOnReason(cfg, t, e, r);
  }

  /** A timed deadline is always the latest activation plus the suspension time. */
  lemma {:induction false} DeadlineIsLatestTrip(cfg: Settings, s: State, events: seq<Event>, r: Reason)
    requires cfg.suspendSec > 0.0 && s.suspensions == map[] && StampsInOrder(cfg, s, events, r)
    ensures var susp := After(cfg, s, events).suspensions;
      r in susp ==>
        LatestTrip(cfg, s, events, r).Some? &&
        susp[r] == Some(LatestTrip(cfg, s, events, r).value + cfg.suspendSec)
  {
    if events != [] {
      var before := events[..|events| - 1];
      DeadlineIsLatestTrip(cfg, s, before, r);
      DeadlineStep(cfg, After(cfg, s, before), events[|events| - 1], r, LatestTrip(cfg, s, before, r));
    }
  }

  predicate Untimed(s: State, r: Reason) {
    r in s.suspensions && s.suspensions[r].None?
  }

  /** The event is a heartbeat that has seen new polls. */
  predicate SeesNewPolls(s: State, e: Event) {
    e.Heartbeat? && e.eventCount > s.lastSeen
  }

  /** One event lifts an untimed suspension exactly when it is a stale scheduler's and the event a
      heartbeat with new polls. */
  lemma UntimedLeavesIff(cfg: Settings, s: State, e: Event, r: Reason)
    requires Untimed(s, r)
    ensures r !in Next(cfg, s, e).suspensions <==> r == SchedulerStale && SeesNewPolls(s, e)
    ensures r in Next(cfg, s, e).suspensions ==> Untimed(Next(cfg, s, e), r)
  {
    StepOnReason(cfg, s, e, r);
  }

  ghost predicate StaysUntimed(cfg: Settings, s: State, events: seq<Event>, r: Reason) {
    forall k :: 0 <= k <= |events| ==> Untimed(After(cfg, s, events[..k]), r)
  }

  ghost predicate NoNewPolls(cfg: Settings, s: State, events: seq<Event>) {
    forall k :: 0 <= k < |events| ==> !SeesNewPolls(After(cfg, s, events[..k]), events[k])
  }

  lemma StaysUntimedAppend(cfg: Settings, s: State, before: seq<Event>, e: Event, r: Reason)
    ensures StaysUntimed(cfg, s, before + [e], r) <==>
      StaysUntimed(cfg, s, before, r) && Untimed(After(cfg, s, before + [e]), r)
  {
    var all, n := before + [e], |before|;
    assert all[..n + 1] == all;
    assert forall k :: 0 <= k <= n ==> all[..k] == before[..k];
  }

  lemma NoNewPollsAppend(cfg: Settings, s: State, before: seq<Event>, e: Event)
    ensures NoNewPolls(cfg, s, before + [e]) <==>
      NoNewPolls(cfg, s, before) && !SeesNewPolls(After(cfg, s, before), e)
  {
    var all, n := before + [e], |before|;
    assert all[..n] == before && all[n] == e;
    assert forall k :: 0 <= k < n ==> all[..k] == before[..k] && all[k] == before[k];
  }

  /** Without a suspension time a suspension stays through a whole run exactly when it is not a
      stale scheduler's or no heartbeat of the run has seen new polls. */
  lemma {:induction false} UntimedStays(cfg: Settings, s: State, events: seq<Event>, r: Reason)
    requires Untimed(s, r)
    ensures StaysUntimed(cfg, s, events, r) <==> (r == SchedulerStale ==> NoNewPolls(cfg, s, events))
  {
    if events == [] {
      assert After(cfg, s, events[..0]) == s;
    } else {
      var before, e := events[..|events| - 1], events[|events| - 1];
      assert events == before + [e];
      UntimedStays(cfg, s, before, r);
      StaysUntimedAppend(cfg, s, before, e, r);
      NoNewPollsAppend(cfg, s, before, e);
      if StaysUntimed(cfg, s, before, r) {
        assert before[..|before|] == before;
        UntimedLeavesIff(cfg, After(cfg, s, before), e, r);
      }
    }
  }

  // ---- Renewal: a polled suspension does not end ------------------------------------------

  /** The rule behind `r` is a counter at its threshold, with its suspension running. */
  predicate Suspended(cfg: Settings, s: State, r: Reason, until: real) {
    && cfg.enabled && IsCounter(r) && Threshold(cfg, r) > 0 && Count(s, r) >= Threshold(cfg, r)
    && r in s.suspensions && s.suspensions[r] == Some(until)
  }

  /** The event sets the counter of `r` back to zero. */
  predicate Resets(e: Event, r: Reason) {
    match r
    case ConsecutiveErrors => e.Success?
    case ApiDegraded => e.Success? && e.api
    case OrderFailures => e.EntryExecuted?
    case ProtectionFailures => e.Protection? && e.ok
    case _ => false
  }

  /** The deadline after an event that does not lift the suspension. */
  function Pushed(cfg: Settings, e: Event, r: Reason, until: real): real {
    if Evaluates(e) then MaxReal(until, e.clock(r) + cfg.suspendSec) else until
  }

  /** Only a reset or the end of its suspension lowers a counter. */
  lemma CounterKept(cfg: Settings, s: State, e: Event, r: Reason)
    requires IsCounter(r) && !Resets(e, r) && !Leaves(cfg, s, e, r)
    ensures Count(s, r) <= Count(Prepared(cfg, s, e), r) == Count(Next(cfg, s, e), r)
  {
  }

  lemma KeptCounterTrips(cfg: Settings, s: State, e: Event, r: Reason)
    requires cfg.enabled && IsCounter(r) && Threshold(cfg, r) > 0 && Count(s, r) >= Threshold(cfg, r)
    requires !Resets(e, r) && !Leaves(cfg, s, e, r)
    ensures TripStamp(cfg, s, e, r) == if Evaluates(e) then Some(e.clock(r)) else None
    ensures Count(Next(cfg, s, e), r) >= Threshold(cfg, r)
  {
    CounterKept(cfg, s, e, r);
  }

  lemma KeptSuspensionIsPushed(cfg: Settings, s: State, e: Event, r: Reason, until: real)
    requires Suspended(cfg, s, r, until) && cfg.suspendSec > 0.0 && !Resets(e, r) && !Leaves(cfg, s, e, r)
    ensures Suspended(cfg, Next(cfg, s, e), r, Pushed(cfg, e, r, until))
  {
    KeptCounterTrips(cfg, s, e, r);
    StepOnReason(cfg, s, e, r);
  }

  /** An event that does not reset the counter lifts the suspension exactly when it looks for
      elapsed ones and the deadline is over; otherwise every evaluation pushes the deadline a
      full suspension time ahead. */
  lemma EvaluationRenews(cfg: Settings, s: State, e: Event, r: Reason, until: real)
    requires Suspended(cfg, s, r, until) && cfg.suspendSec > 0.0 && !Resets(e, r)
    ensures r !in Next(cfg, s, e).suspensions <==> ExpiresAt(cfg, e).Some? && ExpiresAt(cfg, e).value >= until
    ensures r in Next(cfg, s, e).suspensions ==> Suspended(cfg, Next(cfg, s, e), r, Pushed(cfg, e, r, until))
  {
    if Leaves(cfg, s, e, r) {
      LiftedCounterIsZero(cfg, s, e, r);
    } else {
      KeptSuspensionIsPushed(cfg, s, e, r, until);
    }
  }

  /** Nothing resets the counter, and every look for elapsed suspensions comes before the
      deadline that the events before it have left. */
  ghost predicate PolledOften(cfg: Settings, events: seq<Event>, r: Reason, until: real)
    decreases |events|
  {
    events == [] ||
    (&& !Resets(events[0], r)
     && (ExpiresAt(cfg, events[0]).Some? ==> ExpiresAt(cfg, events[0]).value < until)
     && PolledOften(cfg, events[1..], r, Pushed(cfg, events[0], r, until)))
  }

  function AfterFrom(cfg: Settings, s: State, events: seq<Event>): State
    decreases |events|
  {
    if events == [] then s else AfterFrom(cfg, Next(cfg, s, events[0]), events[1..])
  }

  /** The time limit of a tripped counter never takes effect while the service is polled: as long
      as heartbeats and gate checks keep coming less than `operational_suspend_sec` apart (the
      defaults are 60 and 900 seconds) the suspension is renewed each time, however long that
      lasts. */
  lemma {:induction false} PolledSuspensionNeverEnds(cfg: Settings, s: State, events: seq<Event>,
                                                     r: Reason, until: real)
    requires Suspended(cfg, s, r, until) && cfg.suspendSec > 0.0 && PolledOften(cfg, events, r, until)
    ensures r in AfterFrom(cfg, s, events).suspensions
    ensures Count(AfterFrom(cfg, s, events), r) >= Threshold(cfg, r)
    decreases |events|
  {
    if events != [] {
      EvaluationRenews(cfg, s, events[0], r, until);
      PolledSuspensionNeverEnds(cfg, Next(cfg, s, events[0]), events[1..], r, Pushed(cfg, events[0], r, until));
    }
  }

  lemma {:induction false} AfterFromAppend(cfg: Settings, s: State, events: seq<Event>, e: Event)
    ensures AfterFrom(cfg, s, events + [e]) == Next(cfg, AfterFrom(cfg, s, events), e)
    decreases |events|
  {
    if events == [] {
      assert [e][1..] == [];
    } else {
      assert (events + [e])[1..] == events[1..] + [e];
      AfterFromAppend(cfg, Next(cfg, s, events[0]), events[1..], e);
    }
  }

  /** ... so the gate stays shut. */
  lemma PolledGateStaysShut(cfg: Settings, s: State, events: seq<Event>, r: Reason, until: real,
                            now: real, clock: Clock)
    requires Suspended(cfg, s, r, until) && cfg.suspendSec > 0.0
    requires PolledOften(cfg, events + [Gate(now, clock)], r, until)
    ensures !GateOpen(cfg, AfterFrom(cfg, s, events), now, clock)
  {
    var all := events + [Gate(now, clock)];
    PolledSuspensionNeverEnds(cfg, s, all, r, until);
    AfterFromAppend(cfg, s, events, Gate(now, clock));
  }

  // ---- The rules over whole runs, in plain terms ------------------------------------------

  /** A rule is tripped exactly when it is switched on and its counter has reached its limit, or, for
      the scheduler, the last new poll is longer ago than allowed. */
  lemma TripsInPlainTerms(cfg: Settings, s: State, now: real)
    ensures Trips(cfg, s, ConsecutiveErrors, now) <==> cfg.enabled && 0 < cfg.maxErrors <= s.errors
    ensures Trips(cfg, s, ApiDegraded, now) <==> cfg.enabled && 0 < cfg.maxApi <= s.api
    ensures Trips(cfg, s, OrderFailures, now) <==> cfg.enabled && 0 < cfg.maxOrder <= s.order
    ensures Trips(cfg, s, ProtectionFailures, now) <==> cfg.enabled && 0 < cfg.maxProtection <= s.protection
    ensures Trips(cfg, s, SchedulerStale, now) <==>
      cfg.enabled && cfg.maxIdleSec > 0.0 && s.lastPoll.Some? && now > s.lastPoll.value + cfg.maxIdleSec
    ensures !Trips(cfg, s, OrphanUnrecoverable, now)
  {
  }

  /** The event is a failure that the counter of `r` counts. */
  predicate Fails(e: Event, r: Reason) {
    match r
    case ConsecutiveErrors => e.Error?
    case ApiDegraded => e.Error? && e.api
    case OrderFailures => e.EntryFailed?
    case ProtectionFailures => e.Protection? && !e.ok
    case _ => false
  }

  function Failures(events: seq<Event>, r: Reason): nat {
    if events == [] then 0
    else Failures(events[..|events| - 1], r) + (if Fails(events[|events| - 1], r) then 1 else 0)
  }

  /** The event at `j` sets the counter of `r` to zero: a success of its kind, or the end of its
      suspension. */
  predicate Zeroes(cfg: Settings, s: State, events: seq<Event>, r: Reason, j: nat)
    requires j < |events|
  {
    Resets(events[j], r) || Leaves(cfg, After(cfg, s, events[..j]), events[j], r)
  }

  lemma PreparedCounts(cfg: Settings, t: State, e: Event, r: Reason)
    requires IsCounter(r)
    ensures Count(Prepared(cfg, t, e), r) ==
      if Resets(e, r) || Leaves(cfg, t, e, r) then 0 else Count(t, r) + (if Fails(e, r) then 1 else 0)
  {
  }

  lemma CounterStep(cfg: Settings, t: State, e: Event, r: Reason)
    requires IsCounter(r)
    ensures Count(Next(cfg, t, e), r) ==
      if Resets(e, r) || Leaves(cfg, t, e, r) then 0 else Count(t, r) + (if Fails(e, r) then 1 else 0)
  {
    PreparedCounts(cfg, t, e, r);
    assert Count(Next(cfg, t, e), r) == Count(Prepared(cfg, t, e), r);
  }

  /** Each counter is the number of its failures since it was last zero: since the start, or since the
      last success of its kind or the end of its suspension. */
  lemma {:induction false} CounterCountsFailures(cfg: Settings, s: State, events: seq<Event>, r: Reason, from: nat)
    requires IsCounter(r) && from <= |events|
    requires from > 0 ==> Zeroes(cfg, s, events, r, from - 1)
    requires forall j :: from <= j < |events| ==> !Zeroes(cfg, s, events, r, j)
    ensures Count(After(cfg, s, events), r) == (if from == 0 then Count(s, r) else 0) + Failures(events[from..], r)
    decreases |events|
  {
    if events != [] {
      var before, e := events[..|events| - 1], events[|events| - 1];
      CounterStep(cfg, After(cfg, s, before), e, r);
      if from < |events| {
        forall j | 0 <= j < |before| ensures Zeroes(cfg, s, before, r, j) == Zeroes(cfg, s, events, r, j) {
          assert before[..j] == events[..j];
        }
        CounterCountsFailures(cfg, s, before, r, from);
        assert events[..|before|] == before && !Zeroes(cfg, s, events, r, |before|);
        assert events[from..][..|events| - from - 1] == before[from..];
      } else {
        assert events[..from - 1] == before && events[from..] == [];
      }
    }
  }

  function LatestCount(s: State, events: seq<Event>): int {
    if events == [] then s.lastSeen
    else
      var e := events[|events| - 1];
      if e.Heartbeat? then e.eventCount else LatestCount(s, events[..|events| - 1])
  }

  /** The time of the last heartbeat that saw new polls, and the count the last heartbeat saw. */
  function LatestPoll(s: State, events: seq<Event>): Option<real> {
    if events == [] then s.lastPoll
    else
      var before, e := events[..|events| - 1], events[|events| - 1];
      if e.Heartbeat? && e.eventCount > LatestCount(s, before) then Some(e.now) else LatestPoll(s, before)
  }

  lemma {:induction false} PollsAreRemembered(cfg: Settings, s: State, events: seq<Event>)
    ensures After(cfg, s, events).lastPoll == LatestPoll(s, events)
    ensures After(cfg, s, events).lastSeen == LatestCount(s, events)
  {
    if events != [] {
      PollsAreRemembered(cfg, s, events[..|events| - 1]);
    }
  }

  lemma TrippedShutsGate(cfg: Settings, s: State, r: Reason, now: real, clock: Clock)
    requires cfg.enabled && Trips(cfg, Expired(s, now), r, now)
    ensures !GateOpen(cfg, s, now, clock)
  {
    GateOpensIff(cfg, s, now, clock);
  }

  /** When the last new poll is longer ago than allowed, the gate is shut. */
  lemma IdleSchedulerShutsGate(cfg: Settings, s: State, events: seq<Event>, now: real, clock: Clock)
    requires cfg.enabled && cfg.maxIdleSec > 0.0
    requires LatestPoll(s, events).Some? && now > LatestPoll(s, events).value + cfg.maxIdleSec
    ensures !GateOpen(cfg, After(cfg, s, events), now, clock)
  {
    PollsAreRemembered(cfg, s, events);
    TrippedShutsGate(cfg, After(cfg, s, events), SchedulerStale, now, clock);
  }

  /** When a counter's failures have reached its limit and its suspension has not just elapsed, the
      gate is shut. */
  lemma FailuresShutGate(cfg: Settings, s: State, events: seq<Event>, r: Reason, from: nat, now: real, clock: Clock)
    requires cfg.enabled && IsCounter(r) && 0 < from <= |events| && Zeroes(cfg, s, events, r, from - 1)
    requires forall j :: from <= j < |events| ==> !Zeroes(cfg, s, events, r, j)
    requires 0 < (match r case ConsecutiveErrors => cfg.maxErrors
                          case ApiDegraded => cfg.maxApi
                          case OrderFailures => cfg.maxOrder
                          case _ => cfg.maxProtection) <= Failures(events[from..], r)
    requires !Elapsed(After(cfg, s, events).suspensions, r, now)
    ensures !GateOpen(cfg, After(cfg, s, events), now, clock)
  {
    CounterCountsFailures(cfg, s, events, r, from);
    TripsInPlainTerms(cfg, Expired(After(cfg, s, events), now), now);
    TrippedShutsGate(cfg, After(cfg, s, events), r, now, clock);
  }

  /** An open gate leaves every counter below its limit and a scheduler that is not idle. */
  lemma OpenGateInPlainTerms(cfg: Settings, s: State, now: real, clock: Clock)
    requires cfg.enabled && GateOpen(cfg, s, now, clock)
    ensures var after := Next(cfg, s, Gate(now, clock));
      && (cfg.maxErrors > 0 ==> after.errors < cfg.maxErrors)
      && (cfg.maxApi > 0 ==> after.api < cfg.maxApi)
      && (cfg.maxOrder > 0 ==> after.order < cfg.maxOrder)
      && (cfg.maxProtection > 0 ==> after.protection < cfg.maxProtection)
      && (cfg.maxIdleSec > 0.0 && after.lastPoll.Some? ==> now <= after.lastPoll.value + cfg.maxIdleSec)
  {
    var after := Next(cfg, s, Gate(now, clock));
    TripsInPlainTerms(cfg, after, now);
    OpenGateIsClean(cfg, s, now, clock, ConsecutiveErrors);
    OpenGateIsClean(cfg, s, now, clock, ApiDegraded);
    OpenGateIsClean(cfg, s, now, clock, OrderFailures);
    OpenGateIsClean(cfg, s, now, clock, ProtectionFailures);
    OpenGateIsClean(cfg, s, now, clock, SchedulerStale);
  }

  /** With pausing on orphans, an unrecoverable orphan shuts the gate until its deadline, and for good
      when suspensions have none. */
  lemma OrphanShutsGate(cfg: Settings, s: State, stamp: real, now: real, clock: Clock)
    requires cfg.enabled && cfg.pauseOnOrphan && (cfg.suspendSec > 0.0 ==> now < stamp + cfg.suspendSec)
    ensures !GateOpen(cfg, Next(cfg, s, Orphan(stamp)), now, clock)
  {
    GateOpensIff(cfg, Next(cfg, s, Orphan(stamp)), now, clock);
    assert !Elapsed(Next(cfg, s, Orphan(stamp)).suspensions, OrphanUnrecoverable, now);
  }
}
