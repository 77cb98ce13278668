/** Operational kill switches (services/operational_service.py): consecutive-failure counters,
    timed suspensions and the gate for new entries.  Times are seconds, with fractions.

    `now` is the clock reading a caller passes down; an activation reads the clock again, which
    `clock` gives per reason. */
module KillSwitches {
  import opened Common

  datatype Reason =
    | ConsecutiveErrors | ApiDegraded | OrderFailures | ProtectionFailures
    | SchedulerStale | OrphanUnrecoverable

  datatype Settings = Settings(enabled: bool, maxErrors: int, maxApi: int, maxOrder: int, maxProtection: int,
                               maxIdleSec: real, suspendSec: real, pauseOnOrphan: bool)

  type Clock = Reason -> real

  /** A suspension maps to its deadline, or to None when it has none. */
  type Suspensions = map<Reason, Option<real>>

  datatype State = State(errors: nat, api: nat, order: nat, protection: nat,
                         lastPoll: Option<real>, lastSeen: int, suspensions: Suspensions)

  predicate IsCounter(r: Reason) {
    r.ConsecutiveErrors? || r.ApiDegraded? || r.OrderFailures? || r.ProtectionFailures?
  }

  function Count(s: State, r: Reason): nat {
    match r
    case ConsecutiveErrors => s.errors
    case ApiDegraded => s.api
    case OrderFailures => s.order
    case ProtectionFailures => s.protection
    case _ => 0
  }

  function Threshold(cfg: Settings, r: Reason): int {
    match r
    case ConsecutiveErrors => cfg.maxErrors
    case ApiDegraded => cfg.maxApi
    case OrderFailures => cfg.maxOrder
    case ProtectionFailures => cfg.maxProtection
    case _ => 0
  }

  /** The rule behind a reason is enabled and tripped at `now`. */
  predicate Trips(cfg: Settings, s: State, r: Reason, now: real) {
    cfg.enabled &&
    if IsCounter(r) then Threshold(cfg, r) > 0 && Count(s, r) >= Threshold(cfg, r)
    else r.SchedulerStale? && cfg.maxIdleSec > 0.0 && s.lastPoll.Some? && now - s.lastPoll.value > cfg.maxIdleSec
  }

  function Deadline(cfg: Settings, stamp: real): Option<real> {
    if cfg.suspendSec <= 0.0 then None else Some(stamp + cfg.suspendSec)
  }

  /** The deadline after an activation: an untimed suspension stays, a later deadline stays. */
  function Renewed(suspensions: Suspensions, r: Reason, until: Option<real>): Option<real> {
    if r in suspensions && suspensions[r].None? then None
    else if r in suspensions && until.Some? && suspensions[r].value >= until.value then suspensions[r]
    else until
  }

  /** One rule, applied to the suspensions so far. */
  function Ruled(cfg: Settings, s: State, suspensions: Suspensions, r: Reason, now: real, clock: Clock): Suspensions {
    if Trips(cfg, s, r, now) then suspensions[r := Renewed(suspensions, r, Deadline(cfg, clock(r)))] else suspensions
  }

  /** One evaluation of all rules, in the program's order. */
  function Evaluated(cfg: Settings, s: State, now: real, clock: Clock): State {
    var s1 := Ruled(cfg, s, s.suspensions, ConsecutiveErrors, now, clock);
    var s2 := Ruled(cfg, s, s1, ApiDegraded, now, clock);
    var s3 := Ruled(cfg, s, s2, OrderFailures, now, clock);
    var s4 := Ruled(cfg, s, s3, ProtectionFailures, now, clock);
    s.(suspensions := Ruled(cfg, s, s4, SchedulerStale, now, clock))
  }

  predicate Elapsed(suspensions: Suspensions, r: Reason, now: real) {
    r in suspensions && suspensions[r].Some? && now >= suspensions[r].value
  }

  /** A counter once the reasons that are not in `todo` have been looked at. */
  function Left(items: Suspensions, todo: set<Reason>, r: Reason, now: real, count: nat): nat {
    if Elapsed(items, r, now) && r !in todo then 0 else count
  }

  /** Elapsed suspensions leave, and their counters restart. */
  function Expired(s: State, now: real): State {
    State(if Elapsed(s.suspensions, ConsecutiveErrors, now) then 0 else s.errors,
          if Elapsed(s.suspensions, ApiDegraded, now) then 0 else s.api,
          if Elapsed(s.suspensions, OrderFailures, now) then 0 else s.order,
          if Elapsed(s.suspensions, ProtectionFailures, now) then 0 else s.protection,
          s.lastPoll, s.lastSeen,
          map r | r in s.suspensions && !Elapsed(s.suspensions, r, now) :: s.suspensions[r])
  }

  function Cleared(s: State, r: Reason): State {
    if r !in s.suspensions then s
    else
      var rest := s.(suspensions := s.suspensions - {r});
      match r
      case ConsecutiveErrors => rest.(errors := 0)
      case ApiDegraded => rest.(api := 0)
      case OrderFailures => rest.(order := 0)
      case ProtectionFailures => rest.(protection := 0)
      case _ => rest
  }

  function Polled(s: State, eventCount: int, now: real): State {
    if eventCount > s.lastSeen then Cleared(s.(lastSeen := eventCount, lastPoll := Some(now)), SchedulerStale)
    else s.(lastSeen := eventCount)
  }

  // ---- Events -----------------------------------------------------------------------------

  datatype Event =
    | Heartbeat(eventCount: int, now: real, clock: Clock)
    | Gate(now: real, clock: Clock)
    | Peek(now: real)                                        // active_suspensions
    | Error(api: bool, now: real, clock: Clock)
    | Success(api: bool)
    | EntryExecuted
    | EntryFailed(now: real, clock: Clock)
    | Protection(ok: bool, now: real, clock: Clock)
    | Orphan(stamp: real)                                    // an unrecoverable one

  /** The state an event leaves before any rule is evaluated. */
  function Prepared(cfg: Settings, s: State, e: Event): State {
    match e
    case Heartbeat(count, now, _) => Expired(Polled(s, count, now), now)
    case Gate(now, _) => if cfg.enabled then Expired(s, now) else s
    case Peek(now) => Expired(s, now)
    case Error(api, _, _) => s.(errors := s.errors + 1, api := if api then s.api + 1 else s.api)
    case Success(api) => s.(errors := 0, api := if api then 0 else s.api)
    case EntryExecuted => s.(order := 0)
    case EntryFailed(_, _) => s.(order := s.order + 1)
    case Protection(ok, _, _) => s.(protection := if ok then 0 else s.protection + 1)
    case Orphan(stamp) =>
      if !cfg.pauseOnOrphan then s
      else s.(suspensions := s.suspensions[OrphanUnrecoverable :=
             Renewed(s.suspensions, OrphanUnrecoverable, Deadline(cfg, stamp))])
  }

  /** The events after which all rules are evaluated. */
  predicate Evaluates(e: Event) {
    e.Heartbeat? || e.Gate? || e.Error? || e.EntryFailed? || e.Protection?
  }

  function Next(cfg: Settings, s: State, e: Event): State {
    var prepared := Prepared(cfg, s, e);
    if Evaluates(e) then Evaluated(cfg, prepared, e.now, e.clock) else prepared
  }

  predicate GateOpen(cfg: Settings, s: State, now: real, clock: Clock) {
    !cfg.enabled || Next(cfg, s, Gate(now, clock)).suspensions == map[]
  }

  function After(cfg: Settings, s: State, events: seq<Event>): State {
    if events == [] then s else Next(cfg, After(cfg, s, events[..|events| - 1]), events[|events| - 1])
  }

  // ---- The service ------------------------------------------------------------------------

  class OperationalService {
    const settings: Settings
    var consecutiveErrors: nat
    var consecutiveApiErrors: nat
    var consecutiveOrderFailures: nat
    var consecutiveProtectionFailures: nat
    var lastPollTs: Option<real>
    var lastSeenEventCount: int
    var suspensions: Suspensions

    function Now(): State
      reads this
    {
      State(consecutiveErrors, consecutiveApiErrors, consecutiveOrderFailures, consecutiveProtectionFailures,
            lastPollTs, lastSeenEventCount, suspensions)
    }

    constructor (settings: Settings)
      ensures this.settings == settings
      ensures Now() == State(0, 0, 0, 0, None, 0, map[])
    {
      this.settings := settings;
      consecutiveErrors, consecutiveApiErrors, consecutiveOrderFailures, consecutiveProtectionFailures := 0, 0, 0, 0;
      lastPollTs, lastSeenEventCount, suspensions := None, 0, map[];
    }

    method ActivateSuspension(r: Reason, stamp: real)
      modifies this`suspensions
      ensures suspensions == old(suspensions)[r := Renewed(old(suspensions), r, Deadline(settings, stamp))]
    {
      var until := if settings.suspendSec <= 0.0 then None else Some(stamp + settings.suspendSec);
      if r in suspensions && suspensions[r].None? {
        return;
      }
      if r in suspensions && until.Some? && suspensions[r].value >= until.value {
        return;
      }
      suspensions := suspensions[r := until];
    }

    method EvaluateSuspensionRules(now: real, clock: Clock)
      modifies this`suspensions
      ensures Now() == Evaluated(settings, old(Now()), now, clock)
    {
      if !settings.enabled {
        return;
      }
      ghost var s := Now();
      ApplyRule(settings.maxErrors > 0 && consecutiveErrors >= settings.maxErrors, ConsecutiveErrors, s, now, clock);
      ApplyRule(settings.maxApi > 0 && consecutiveApiErrors >= settings.maxApi, ApiDegraded, s, now, clock);
      ApplyRule(settings.maxOrder > 0 && consecutiveOrderFailures >= settings.maxOrder, OrderFailures, s, now, clock);
      ApplyRule(settings.maxProtection > 0 && consecutiveProtectionFailures >= settings.maxProtection,
                ProtectionFailures, s, now, clock);
      ApplyRule(settings.maxIdleSec > 0.0 && lastPollTs.Some? && now - lastPollTs.value > settings.maxIdleSec,
                SchedulerStale, s, now, clock);
    }

    method ApplyRule(tripped: bool, r: Reason, ghost s: State, now: real, clock: Clock)
      requires tripped == Trips(settings, s, r, now)
      modifies this`suspensions
      ensures suspensions == Ruled(settings, s, old(suspensions), r, now, clock)
    {
      if tripped {
        ActivateSuspension(r, clock(r));
      }
    }

    method ClearSuspension(r: Reason)
      modifies this
      ensures Now() == Cleared(old(Now()), r)
    {
      if r !in suspensions {
        return;
      }
      suspensions := suspensions - {r};
      match r {
        case ConsecutiveErrors => consecutiveErrors := 0;
        case ApiDegraded => consecutiveApiErrors := 0;
        case OrderFailures => consecutiveOrderFailures := 0;
        case ProtectionFailures => consecutiveProtectionFailures := 0;
        case _ =>
      }
    }

    method ExpireSuspensions(now: real)
      modifies this
      ensures Now() == Expired(old(Now()), now)
    {
      var items := suspensions;
      var todo := items.Keys;
      while todo != {}
        invariant todo <= items.Keys
        invariant lastPollTs == old(lastPollTs) && lastSeenEventCount == old(lastSeenEventCount)
        invariant forall r :: r in suspensions <==> r in items && (r in todo || !Elapsed(items, r, now))
        invariant forall r :: r in suspensions ==> suspensions[r] == items[r]
        invariant consecutiveErrors == Left(items, todo, ConsecutiveErrors, now, old(consecutiveErrors))
        invariant consecutiveApiErrors == Left(items, todo, ApiDegraded, now, old(consecutiveApiErrors))
        invariant consecutiveOrderFailures == Left(items, todo, OrderFailures, now, old(consecutiveOrderFailures))
        invariant consecutiveProtectionFailures ==
                  Left(items, todo, ProtectionFailures, now, old(consecutiveProtectionFailures))
        decreases todo
      {
        var r :| r in todo;
        if items[r].Some? {
          if now >= items[r].value {
            ClearSuspension(r);
          }
        }
        todo := todo - {r};
      }
      assert suspensions == Expired(old(Now()), now).suspensions;
    }

    method OnHeartbeat(eventCount: int, now: real, clock: Clock)
      modifies this
      ensures Now() == Next(settings, old(Now()), Heartbeat(eventCount, now, clock))
    {
      if eventCount > lastSeenEventCount {
        lastSeenEventCount := eventCount;
        lastPollTs := Some(now);
        ClearSuspension(SchedulerStale);
      } else if eventCount < lastSeenEventCount {
        lastSeenEventCount := eventCount;
      }
      ExpireSuspensions(now);
      EvaluateSuspensionRules(now, clock);
    }

    method CanOpenNewEntries(now: real, clock: Clock) returns (open: bool)
      modifies this
      ensures Now() == Next(settings, old(Now()), Gate(now, clock))
      ensures open == GateOpen(settings, old(Now()), now, clock)
    {
      if !settings.enabled {
        return true;
      }
      ExpireSuspensions(now);
      EvaluateSuspensionRules(now, clock);
      open := suspensions == map[];
    }

    method RecordError(api: bool, now: real, clock: Clock)
      modifies this
      ensures Now() == Next(settings, old(Now()), Error(api, now, clock))
    {
      consecutiveErrors := consecutiveErrors + 1;
      if api {
        consecutiveApiErrors := consecutiveApiErrors + 1;
      }
      EvaluateSuspensionRules(now, clock);
    }

    method RecordSuccess(api: bool)
      modifies this
      ensures Now() == Next(settings, old(Now()), Success(api))
    {
      consecutiveErrors := 0;
      if api {
        consecutiveApiErrors := 0;
      }
    }

    method RecordEntryExecuted()
      modifies this
      ensures Now() == Next(settings, old(Now()), EntryExecuted)
    {
      consecutiveOrderFailures := 0;
    }

    method RecordEntryFailed(now: real, clock: Clock)
      modifies this
      ensures Now() == Next(settings, old(Now()), EntryFailed(now, clock))
    {
      consecutiveOrderFailures := consecutiveOrderFailures + 1;
      EvaluateSuspensionRules(now, clock);
    }

    method RecordProtectionResult(ok: bool, now: real, clock: Clock)
      modifies this
      ensures Now() == Next(settings, old(Now()), Protection(ok, now, clock))
    {
      consecutiveProtectionFailures := if ok then 0 else consecutiveProtectionFailures + 1;
      EvaluateSuspensionRules(now, clock);
    }

    method RecordUnrecoverableOrphan(stamp: real)
      modifies this
      ensures Now() == Next(settings, old(Now()), Orphan(stamp))
    {
      if settings.pauseOnOrphan {
        ActivateSuspension(OrphanUnrecoverable, stamp);
      }
    }
  }
}
