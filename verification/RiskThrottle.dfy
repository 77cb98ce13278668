/** The trade throttle (risk.py): cooldown, losing streak, daily drawdown, and what survives a
    restart.  Times are seconds since the epoch, with fractions. */
module RiskThrottle {
  import opened Common

  const SECONDS_PER_DAY := 86400

  datatype Limits = Limits(cooldownSec: real, maxLosses: int, drawdown: real, drawdownUsdt: real, lossPauseSec: real)

  datatype State = State(losses: int, lastTrade: Option<real>, dayStart: real, day: Option<int>,
                         equity: real, paused: bool, pauseUntil: Option<real>)

  function Day(now: real): int {
    now.Floor / SECONDS_PER_DAY
  }

  function Rolled(s: State, now: real): State {
    if s.day == Some(Day(now)) then s
    else s.(day := Some(Day(now)), dayStart := s.equity, losses := 0, paused := false)
  }

  predicate LossPaused(s: State, now: real) {
    s.pauseUntil.Some? && now < s.pauseUntil.value
  }

  predicate CoolingDown(limits: Limits, s: State, now: real) {
    s.lastTrade.Some? && now - s.lastTrade.value < limits.cooldownSec
  }

  predicate StreakReached(limits: Limits, s: State) {
    limits.maxLosses > 0 && s.losses >= limits.maxLosses
  }

  predicate DrawdownReached(limits: Limits, s: State) {
    || (limits.drawdown > 0.0
        && (if s.dayStart > 0.0 then (s.dayStart - s.equity) / s.dayStart else 0.0) >= limits.drawdown)
    || (limits.drawdownUsdt > 0.0 && s.dayStart - s.equity >= limits.drawdownUsdt)
  }

  /** `can_trade`: the new state and the answer. */
  function Checked(limits: Limits, s: State, now: real): (State, bool) {
    var r := Rolled(s, now);
    if r.paused || LossPaused(r, now) then (r, false)
    else
      var free := r.(pauseUntil := None);
      if CoolingDown(limits, free, now) then (free, false)
      else if StreakReached(limits, free) then
        (free.(pauseUntil := Some(now + MaxReal(0.0, limits.lossPauseSec)), losses := 0), false)
      else if DrawdownReached(limits, free) then (free.(paused := true), false)
      else (free, true)
  }

  /** `update_trade` */
  function Traded(s: State, pnl: real, now: real): State {
    var r := Rolled(s, now);
    r.(equity := r.equity + pnl, lastTrade := Some(now), losses := if pnl < 0.0 then r.losses + 1 else 0)
  }

  /** `init_equity` */
  function Initialised(s: State, equity: real, now: real): State {
    s.(equity := equity, dayStart := equity, day := Some(Day(now)))
  }

  class RiskManager {
    const limits: Limits
    var consecutiveLosses: int
    var lastTradeTime: Option<real>
    var dayStartEquity: real
    var currentDay: Option<int>
    var equity: real
    var paused: bool
    var lossPauseUntil: Option<real>

    function Snapshot(): State
      reads this
    {
      State(consecutiveLosses, lastTradeTime, dayStartEquity, currentDay, equity, paused, lossPauseUntil)
    }

    constructor (limits: Limits)
      ensures this.limits == limits
      ensures Snapshot() == State(0, None, 0.0, None, 0.0, false, None)
    {
      this.limits := limits;
      consecutiveLosses, lastTradeTime, dayStartEquity := 0, None, 0.0;
      currentDay, equity, paused, lossPauseUntil := None, 0.0, false, None;
    }

    method InitEquity(equity: real, now: real)
      modifies this
      ensures Snapshot() == Initialised(old(Snapshot()), equity, now)
    {
      this.equity, dayStartEquity, currentDay := equity, equity, Some(Day(now));
    }

    method RollDay(now: real)
      modifies this
      ensures Snapshot() == Rolled(old(Snapshot()), now)
    {
      if currentDay != Some(Day(now)) {
        currentDay := Some(Day(now));
        dayStartEquity := equity;
        consecutiveLosses := 0;
        paused := false;
      }
    }

    method CanTrade(now: real) returns (allowed: bool)
      modifies this
      ensures (Snapshot(), allowed) == Checked(limits, old(Snapshot()), now)
    {
      RollDay(now);
      if paused {
        return false;
      }
      if lossPauseUntil.Some? && now < lossPauseUntil.value {
        return false;
      }
      if lossPauseUntil.Some? && now >= lossPauseUntil.value {
        lossPauseUntil := None;
      }
      if lastTradeTime.Some? {
        var elapsed := now - lastTradeTime.value;
        if elapsed < limits.cooldownSec {
          return false;
        }
      }
      if limits.maxLosses > 0 && consecutiveLosses >= limits.maxLosses {
        lossPauseUntil := Some(now + MaxReal(0.0, limits.lossPauseSec));
        consecutiveLosses := 0;
        return false;
      }
      if limits.drawdown > 0.0 {
        var drawdown := 0.0;
        if dayStartEquity > 0.0 {
          drawdown := (dayStartEquity - equity) / dayStartEquity;
        }
        if drawdown >= limits.drawdown {
          paused := true;
          return false;
        }
      }
      if limits.drawdownUsdt > 0.0 {
        var lost := dayStartEquity - equity;
        if lost >= limits.drawdownUsdt {
          paused := true;
          return false;
        }
      }
      allowed := true;
    }

    method UpdateTrade(pnl: real, now: real)
      modifies this
      ensures Snapshot() == Traded(old(Snapshot()), pnl, now)
    {
      RollDay(now);
      equity := equity + pnl;
      lastTradeTime := Some(now);
      if pnl < 0.0 {
        consecutiveLosses := consecutiveLosses + 1;
      } else {
        consecutiveLosses := 0;
      }
    }
  }

  // ---- Runs -------------------------------------------------------------------------------

  datatype Event = Check(now: real) | Trade(pnl: real, now: real)

  function Applied(limits: Limits, s: State, e: Event): State {
    match e
    case Check(now) => Checked(limits, s, now).0
    case Trade(pnl, now) => Traded(s, pnl, now)
  }

  function After(limits: Limits, s: State, events: seq<Event>): State {
    if events == [] then s else Applied(limits, After(limits, s, events[..|events| - 1]), events[|events| - 1])
  }

  /** The answer of the check at position `k`. */
  predicate Allowed(limits: Limits, s: State, events: seq<Event>, k: nat)
    requires k < |events|
  {
    events[k].Check? && Checked(limits, After(limits, s, events[..k]), events[k].now).1
  }

  ghost predicate InTime(start: real, events: seq<Event>) {
    && (forall i :: 0 <= i < |events| ==> start <= events[i].now)
    && (forall i, j :: 0 <= i < j < |events| ==> events[i].now <= events[j].now)
  }

  lemma AfterStep(limits: Limits, s: State, events: seq<Event>, k: nat)
    requires k < |events|
    ensures After(limits, s, events[..k + 1]) == Applied(limits, After(limits, s, events[..k]), events[k])
  {
    assert events[..k + 1][..k] == events[..k];
  }

  function TotalPnl(events: seq<Event>): real {
    if events == [] then 0.0
    else
      var last := events[|events| - 1];
      TotalPnl(events[..|events| - 1]) + (if last.Trade? then last.pnl else 0.0)
  }

  /** Realized profit of one UTC day. */
  function DayPnl(events: seq<Event>, day: int): real {
    if events == [] then 0.0
    else
      var last := events[|events| - 1];
      DayPnl(events[..|events| - 1], day) + (if last.Trade? && Day(last.now) == day then last.pnl else 0.0)
  }

  /** Equity is the initial equity plus all realized profit. */
  lemma {:induction false} EquityConserved(limits: Limits, s: State, events: seq<Event>)
    ensures After(limits, s, events).equity == s.equity + TotalPnl(events)
  {
    if events != [] {
      EquityConserved(limits, s, events[..|events| - 1]);
    }
  }

  // ---- Pauses -----------------------------------------------------------------------------

  lemma {:induction false} DrawdownPauseHolds(limits: Limits, s: State, events: seq<Event>, day: int)
    requires s.paused && s.day == Some(day)
    requires forall e :: e in events ==> Day(e.now) == day
    ensures After(limits, s, events).paused && After(limits, s, events).day == Some(day)
  {
    if events != [] {
      assert events[|events| - 1] in events;
      DrawdownPauseHolds(limits, s, events[..|events| - 1], day);
    }
  }

  lemma AfterAppend(limits: Limits, s: State, before: seq<Event>, e: Event)
    ensures After(limits, s, before + [e]) == Applied(limits, After(limits, s, before), e)
  {
    assert (before + [e])[..|before|] == before;
  }

  /** A run in two parts is one run. */
  lemma {:induction false} AfterBoth(limits: Limits, s: State, first: seq<Event>, second: seq<Event>)
    ensures After(limits, s, first + second) == After(limits, After(limits, s, first), second)
    decreases |second|
  {
    if second == [] {
      assert first + second == first;
    } else {
      var init, last := second[..|second| - 1], second[|second| - 1];
      AfterBoth(limits, s, first, init);
      AfterAppend(limits, s, first + init, last);
      assert first + second == (first + init) + [last];
    }
  }

  lemma SplitRun(limits: Limits, s: State, events: seq<Event>, a: nat, b: nat)
    requires a <= b <= |events|
    ensures After(limits, s, events[..b]) == After(limits, After(limits, s, events[..a]), events[a..b])
  {
    assert events[..b] == events[..a] + events[a..b];
    AfterBoth(limits, s, events[..a], events[a..b]);
  }

  lemma StretchWithinDay(start: real, events: seq<Event>, j: nat, k: nat, now: real)
    requires InTime(start, events) && j < k <= |events| && Day(now) == Day(events[j].now)
    requires forall m :: 0 <= m < k ==> events[m].now <= now
    ensures forall e :: e in events[j + 1..k] ==> Day(e.now) == Day(now)
  {
    var rest := events[j + 1..k];
    forall e | e in rest ensures Day(e.now) == Day(now) {
      var m :| 0 <= m < |rest| && rest[m] == e;
      assert e == events[j + 1 + m];
    }
  }

  lemma PauseKeptWithinDay(limits: Limits, s: State, start: real, events: seq<Event>, j: nat, k: nat, now: real)
    requires InTime(start, events) && j < k <= |events| && Day(now) == Day(events[j].now)
    requires forall m :: 0 <= m < k ==> events[m].now <= now
    requires After(limits, s, events[..j + 1]).paused
    ensures var t := After(limits, s, events[..k]); t.paused && t.day == Some(Day(now))
  {
    AfterStep(limits, s, events, j);
    var rest := events[j + 1..k];
    SplitRun(limits, s, events, j + 1, k);
    StretchWithinDay(start, events, j, k, now);
    DrawdownPauseHolds(limits, After(limits, s, events[..j + 1]), rest, Day(now));
  }

  /** Once a check has paused trading for drawdown, every later check of that UTC day is refused. */
  lemma PausedForTheDay(limits: Limits, s: State, start: real, events: seq<Event>, j: nat, k: nat)
    requires InTime(start, events) && j < k < |events| && Day(events[k].now) == Day(events[j].now)
    requires After(limits, s, events[..j + 1]).paused
    ensures !Allowed(limits, s, events, k)
  {
    PauseKeptWithinDay(limits, s, start, events, j, k, events[k].now);
  }

  lemma {:induction false} LossPauseHolds(limits: Limits, s: State, events: seq<Event>, until: real)
    requires s.pauseUntil == Some(until)
    requires forall e :: e in events ==> e.now < until
    ensures After(limits, s, events).pauseUntil == Some(until)
  {
    if events != [] {
      assert events[|events| - 1] in events;
      LossPauseHolds(limits, s, events[..|events| - 1], until);
    }
  }

  /** The check at `j` arms a loss pause. */
  predicate ArmsPause(limits: Limits, s: State, events: seq<Event>, j: nat)
    requires j < |events|
  {
    var r := Rolled(After(limits, s, events[..j]), events[j].now);
    events[j].Check? && !r.paused && !LossPaused(r, events[j].now)
      && !CoolingDown(limits, r, events[j].now) && StreakReached(limits, r)
  }

  lemma ArmedPause(limits: Limits, s: State, events: seq<Event>, j: nat)
    requires j < |events| && ArmsPause(limits, s, events, j) && limits.lossPauseSec >= 0.0
    ensures After(limits, s, events[..j + 1]).pauseUntil == Some(events[j].now + limits.lossPauseSec)
  {
    AfterStep(limits, s, events, j);
  }

  lemma SliceIsEarlier(events: seq<Event>, j: nat, k: nat, until: real)
    requires j < k <= |events| && forall m :: 0 <= m < k ==> events[m].now < until
    ensures forall e :: e in events[j + 1..k] ==> e.now < until
  {
  }

  lemma LossPauseKept(limits: Limits, s: State, start: real, events: seq<Event>, j: nat, k: nat, now: real)
    requires InTime(start, events) && j < k <= |events| && ArmsPause(limits, s, events, j)
    requires forall m :: 0 <= m < k ==> events[m].now <= now
    requires now < events[j].now + limits.lossPauseSec
    ensures After(limits, s, events[..k]).pauseUntil == Some(events[j].now + limits.lossPauseSec)
  {
    assert events[j].now <= now;
    ArmedPause(limits, s, events, j);
    SplitRun(limits, s, events, j + 1, k);
    SliceIsEarlier(events, j, k, events[j].now + limits.lossPauseSec);
    LossPauseHolds(limits, After(limits, s, events[..j + 1]), events[j + 1..k], events[j].now + limits.lossPauseSec);
  }

  /** After a losing streak armed a pause at `j`, every check before its end is refused, also
      across midnight. */
  lemma RefusedUntilPauseEnds(limits: Limits, s: State, start: real, events: seq<Event>, j: nat, k: nat)
    requires InTime(start, events) && j < k < |events| && ArmsPause(limits, s, events, j)
    requires events[k].now < events[j].now + limits.lossPauseSec
    ensures !Allowed(limits, s, events, k)
  {
    LossPauseKept(limits, s, start, events, j, k, events[k].now);
  }

  // ---- What every granted check meets -----------------------------------------------------

  /** Between the day's first event and now, equity moved by exactly the day's profit. */
  ghost predicate DayBooked(s: State, events: seq<Event>) {
    s.day.Some? && s.equity - s.dayStart == DayPnl(events, s.day.value)
  }

  lemma {:induction false} NoProfitYet(events: seq<Event>, day: int)
    requires forall e :: e in events ==> Day(e.now) != day
    ensures DayPnl(events, day) == 0.0
  {
    if events != [] {
      assert events[|events| - 1] in events;
      NoProfitYet(events[..|events| - 1], day);
    }
  }

  lemma DayOrder(a: real, b: real)
    requires a <= b
    ensures Day(a) <= Day(b)
  {
  }

  /** When a new day begins, no earlier event is of that day. */
  lemma NewDayIsNew(start: real, before: seq<Event>, now: real, e: Event)
    requires InTime(start, before) && e in before && before[|before| - 1].now <= now
    requires Day(before[|before| - 1].now) != Day(now)
    ensures Day(e.now) != Day(now)
  {
    var m :| 0 <= m < |before| && before[m] == e;
    var last := before[|before| - 1];
    assert e.now <= last.now;
    DayOrder(e.now, last.now);
    DayOrder(last.now, now);
  }

  /** Rolling into `now` keeps the day's books, whether or not a new day begins. */
  lemma RollIsBooked(limits: Limits, s: State, start: real, before: seq<Event>, now: real)
    requires InTime(start, before) && start <= now && (before != [] ==> before[|before| - 1].now <= now)
    requires var t := After(limits, s, before);
      DayBooked(t, before) && t.day == Some(if before == [] then Day(start) else Day(before[|before| - 1].now))
    ensures DayBooked(Rolled(After(limits, s, before), now), before)
  {
    var t := After(limits, s, before);
    if t.day != Some(Day(now)) {
      forall e | e in before ensures Day(e.now) != Day(now) {
        NewDayIsNew(start, before, now, e);
      }
      NoProfitYet(before, Day(now));
    }
  }

  lemma {:induction false} DayIsBooked(limits: Limits, s: State, start: real, events: seq<Event>)
    requires s.day == Some(Day(start)) && s.equity == s.dayStart && InTime(start, events)
    ensures var t := After(limits, s, events);
      && DayBooked(t, events)
      && t.day == Some(if events == [] then Day(start) else Day(events[|events| - 1].now))
  {
    if events != [] {
      var before, last := events[..|events| - 1], events[|events| - 1];
      DayIsBooked(limits, s, start, before);
      RollIsBooked(limits, s, start, before, last.now);
    }
  }

  lemma {:induction false} LastTradeIsLatest(limits: Limits, s: State, start: real, events: seq<Event>)
    requires InTime(start, events)
    ensures forall m :: 0 <= m < |events| && events[m].Trade? ==>
      After(limits, s, events).lastTrade.Some? && events[m].now <= After(limits, s, events).lastTrade.value
  {
    if events != [] {
      var before := events[..|events| - 1];
      LastTradeIsLatest(limits, s, start, before);
      assert forall m :: 0 <= m < |before| ==> before[m] == events[m];
    }
  }

  /** Starting from `init_equity`, a check is granted only when the cooldown has passed since
      every earlier trade, the losing streak is below its limit, and the loss realized so far
      that UTC day is below both drawdown limits. */
  lemma GrantedMeetsLimits(limits: Limits, s: State, start: real, events: seq<Event>, k: nat)
    requires s.day == Some(Day(start)) && s.equity == s.dayStart && InTime(start, events)
    requires k < |events| && Allowed(limits, s, events, k)
    ensures var now := events[k].now;
      var t := Rolled(After(limits, s, events[..k]), now);
      var dayLoss := -DayPnl(events[..k], Day(now));
      && (forall m :: 0 <= m < k && events[m].Trade? ==> now - events[m].now >= limits.cooldownSec)
      && (limits.maxLosses > 0 ==> t.losses < limits.maxLosses)
      && (limits.drawdownUsdt > 0.0 ==> dayLoss < limits.drawdownUsdt)
      && (limits.drawdown > 0.0 && t.dayStart > 0.0 ==> dayLoss / t.dayStart < limits.drawdown)
      && t.dayStart - t.equity == dayLoss
  {
    var now := events[k].now;
    var before := events[..k];
    assert InTime(start, before);
    DayIsBooked(limits, s, start, before);
    RollIsBooked(limits, s, start, before, now);
    LastTradeIsLatest(limits, s, start, before);
    forall m | 0 <= m < k && events[m].Trade? ensures now - events[m].now >= limits.cooldownSec {
      assert before[m] == events[m];
    }
  }

  /** The check at `j` pauses the day for drawdown. */
  predicate HaltsDay(limits: Limits, s: State, events: seq<Event>, j: nat)
    requires j < |events|
  {
    var r := Rolled(After(limits, s, events[..j]), events[j].now);
    events[j].Check? && !r.paused && Checked(limits, After(limits, s, events[..j]), events[j].now).0.paused
  }

  ghost predicate DayHalted(limits: Limits, s: State, events: seq<Event>, day: int) {
    exists j :: 0 <= j < |events| && Day(events[j].now) == day && HaltsDay(limits, s, events, j)
  }

  ghost predicate PauseRunning(limits: Limits, s: State, events: seq<Event>, now: real) {
    exists j :: 0 <= j < |events| && ArmsPause(limits, s, events, j) && now < events[j].now + limits.lossPauseSec
  }

  lemma SameInLongerRun(limits: Limits, s: State, before: seq<Event>, e: Event, j: nat)
    requires j < |before|
    ensures HaltsDay(limits, s, before, j) == HaltsDay(limits, s, before + [e], j)
    ensures ArmsPause(limits, s, before, j) == ArmsPause(limits, s, before + [e], j)
  {
    assert (before + [e])[..j] == before[..j];
  }

  /** A pause always has its cause: the check of that day that hit a drawdown limit. */
  lemma {:induction false} DrawdownPauseHasCause(limits: Limits, s: State, events: seq<Event>)
    requires !s.paused
    ensures var t := After(limits, s, events);
      t.paused ==> t.day.Some? && DayHalted(limits, s, events, t.day.value)
  {
    if events != [] {
      var before, e := events[..|events| - 1], events[|events| - 1];
      assert events == before + [e];
      DrawdownPauseHasCause(limits, s, before);
      var u := After(limits, s, before);
      if After(limits, s, events).paused {
        if u.paused && u.day == Some(Day(e.now)) {
          var j :| 0 <= j < |before| && Day(before[j].now) == u.day.value && HaltsDay(limits, s, before, j);
          SameInLongerRun(limits, s, before, e, j);
          assert events[j] == before[j];
        } else {
          assert HaltsDay(limits, s, events, |before|);
        }
      }
    }
  }

  lemma {:induction false} LossPauseHasCause(limits: Limits, s: State, events: seq<Event>)
    requires s.pauseUntil.None?
    ensures var t := After(limits, s, events);
      t.pauseUntil.Some? ==>
        exists j :: 0 <= j < |events| && ArmsPause(limits, s, events, j) &&
                    t.pauseUntil.value == events[j].now + MaxReal(0.0, limits.lossPauseSec)
  {
    if events != [] {
      var before, e := events[..|events| - 1], events[|events| - 1];
      assert events == before + [e];
      LossPauseHasCause(limits, s, before);
      var u := After(limits, s, before);
      if After(limits, s, events).pauseUntil.Some? {
        if ArmsPause(limits, s, events, |before|) {
        } else {
          assert After(limits, s, events).pauseUntil == u.pauseUntil;
          var j :| 0 <= j < |before| && ArmsPause(limits, s, before, j) &&
                   u.pauseUntil.value == before[j].now + MaxReal(0.0, limits.lossPauseSec);
          SameInLongerRun(limits, s, before, e, j);
          assert events[j] == before[j];
        }
      }
    }
  }

  lemma PausedIffHalted(limits: Limits, s: State, start: real, before: seq<Event>, now: real)
    requires !s.paused && InTime(start, before) && forall m :: 0 <= m < |before| ==> before[m].now <= now
    ensures Rolled(After(limits, s, before), now).paused <==> DayHalted(limits, s, before, Day(now))
  {
    DrawdownPauseHasCause(limits, s, before);
    if DayHalted(limits, s, before, Day(now)) {
      var j :| 0 <= j < |before| && Day(before[j].now) == Day(now) && HaltsDay(limits, s, before, j);
      AfterStep(limits, s, before, j);
      PauseKeptWithinDay(limits, s, start, before, j, |before|, now);
      assert before[..|before|] == before;
    }
  }

  lemma LossPausedIffRunning(limits: Limits, s: State, start: real, before: seq<Event>, now: real)
    requires s.pauseUntil.None? && InTime(start, before) && forall m :: 0 <= m < |before| ==> before[m].now <= now
    ensures LossPaused(After(limits, s, before), now) <==> PauseRunning(limits, s, before, now)
  {
    LossPauseHasCause(limits, s, before);
    if PauseRunning(limits, s, before, now) {
      var j :| 0 <= j < |before| && ArmsPause(limits, s, before, j) && now < before[j].now + limits.lossPauseSec;
      LossPauseKept(limits, s, start, before, j, |before|, now);
      assert before[..|before|] == before;
    }
  }

  /** Both directions: on a run from a fresh start a check is granted exactly when no check of
      that UTC day hit a drawdown limit before, no loss pause is running, and cooldown, streak
      and drawdown limits hold now. */
  lemma GrantedIff(limits: Limits, s: State, start: real, events: seq<Event>, k: nat)
    requires !s.paused && s.pauseUntil.None? && InTime(start, events)
    requires k < |events| && events[k].Check?
    ensures var now := events[k].now;
      var t := Rolled(After(limits, s, events[..k]), now);
      Allowed(limits, s, events, k) <==>
        && !DayHalted(limits, s, events[..k], Day(now))
        && !PauseRunning(limits, s, events[..k], now)
        && !CoolingDown(limits, t, now) && !StreakReached(limits, t) && !DrawdownReached(limits, t)
  {
    var before, now := events[..k], events[k].now;
    assert InTime(start, before);
    PausedIffHalted(limits, s, start, before, now);
    LossPausedIffRunning(limits, s, start, before, now);
  }

  // ---- The losing streak ------------------------------------------------------------------

  function LosingTrades(events: seq<Event>): nat {
    if events == [] then 0
    else
      var last := events[|events| - 1];
      LosingTrades(events[..|events| - 1]) + (if last.Trade? && last.pnl < 0.0 then 1 else 0)
  }

  /** A non-losing trade, a new day, or arming a pause restarts the count. */
  predicate Restarts(limits: Limits, s: State, events: seq<Event>, j: nat)
    requires j < |events|
  {
    || (events[j].Trade? && events[j].pnl >= 0.0)
    || After(limits, s, events[..j]).day != Some(Day(events[j].now))
    || ArmsPause(limits, s, events, j)
  }

  lemma RestartCounts(limits: Limits, s: State, events: seq<Event>)
    requires events != [] && Restarts(limits, s, events, |events| - 1)
    ensures After(limits, s, events).losses == LosingTrades(events[|events| - 1..])
  {
    var n := |events| - 1;
    AfterStep(limits, s, events, n);
    assert events[..n + 1] == events;
    assert events[n..] == [events[n]] && [events[n]][..0] == [];
  }

  lemma NoRestartCounts(limits: Limits, t: State, e: Event)
    requires t.day == Some(Day(e.now)) && (e.Trade? ==> e.pnl < 0.0)
    requires !(e.Check? && !t.paused && !LossPaused(t, e.now) && !CoolingDown(limits, t, e.now)
               && StreakReached(limits, t))
    ensures Applied(limits, t, e).losses == t.losses + (if e.Trade? then 1 else 0)
  {
  }

  /** The counter is the number of losing trades since the last restart, the restarting event
      included. */
  lemma {:induction false} StreakCountsLosses(limits: Limits, s: State, events: seq<Event>, from: nat)
    requires from <= |events|
    requires from > 0 ==> Restarts(limits, s, events, from - 1)
    requires forall j :: from <= j < |events| ==> !Restarts(limits, s, events, j)
    ensures After(limits, s, events).losses ==
      (if from == 0 then s.losses + LosingTrades(events)
       else LosingTrades(events[from - 1..]))
    decreases |events|
  {
    if from == |events| {
      if from > 0 {
        RestartCounts(limits, s, events);
      }
    } else {
      var before, e := events[..|events| - 1], events[|events| - 1];
      assert events == before + [e];
      forall j | 0 <= j < |before| ensures Restarts(limits, s, before, j) == Restarts(limits, s, events, j) {
        assert before[..j] == events[..j];
      }
      StreakCountsLosses(limits, s, before, from);
      assert events[..|before|] == before && !Restarts(limits, s, events, |before|);
      NoRestartCounts(limits, After(limits, s, before), e);
      if from > 0 {
        assert events[from - 1..][..|events| - from] == before[from - 1..];
      }
    }
  }

  // ---- One check in plain arithmetic ------------------------------------------------------

  /** What is still counted at `now`: nothing of another UTC day but the running loss pause. */
  function LossesToday(u: State, now: real): int {
    if u.day == Some(Day(now)) then u.losses else 0
  }

  function BaseToday(u: State, now: real): real {
    if u.day == Some(Day(now)) then u.dayStart else u.equity
  }

  predicate HaltedToday(u: State, now: real) {
    u.day == Some(Day(now)) && u.paused
  }

  /** Neither pause is running and the last trade is old enough. */
  predicate Ready(limits: Limits, u: State, now: real) {
    && !HaltedToday(u, now)
    && (u.pauseUntil.None? || now >= u.pauseUntil.value)
    && (u.lastTrade.None? || now - u.lastTrade.value >= limits.cooldownSec)
  }

  /** A loss measured from `base` is below both limits that are set. */
  predicate BelowDrawdown(limits: Limits, loss: real, base: real) {
    && (limits.drawdown > 0.0 && base > 0.0 ==> loss / base < limits.drawdown)
    && (limits.drawdownUsdt > 0.0 ==> loss < limits.drawdownUsdt)
  }

  /** A check arms the loss pause exactly when it is ready and at least `max_consecutive_losses` are
      counted, halts the day exactly when it is ready with fewer and the day's loss is at a limit,
      and is granted exactly when it is ready with fewer and the loss is below both. */
  lemma CheckInPlainTerms(limits: Limits, u: State, now: real)
    ensures var (v, granted) := Checked(limits, u, now);
      var ready, losses, base := Ready(limits, u, now), LossesToday(u, now), BaseToday(u, now);
      var streak := limits.maxLosses > 0 && losses >= limits.maxLosses;
      var below := BelowDrawdown(limits, base - u.equity, base);
      && (granted <==> ready && !streak && below)
      && (v.paused <==> HaltedToday(u, now) || (ready && !streak && !below))
      && v.losses == (if ready && streak then 0 else losses)
      && (ready && streak ==> v.pauseUntil == Some(now + MaxReal(0.0, limits.lossPauseSec)))
      && (!(ready && streak) ==> v.pauseUntil == u.pauseUntil || v.pauseUntil == None)
      && (v.pauseUntil == None && u.pauseUntil.Some? ==> now >= u.pauseUntil.value)
      && v.day == Some(Day(now)) && v.dayStart == base && v.equity == u.equity && v.lastTrade == u.lastTrade
  {
  }

  /** What one trade does to the books. */
  lemma TradeInPlainTerms(u: State, pnl: real, now: real)
    ensures var v := Traded(u, pnl, now);
      && v.losses == (if pnl < 0.0 then LossesToday(u, now) + 1 else 0)
      && v.equity == u.equity + pnl && v.lastTrade == Some(now)
      && (v.paused <==> HaltedToday(u, now)) && v.pauseUntil == u.pauseUntil
      && v.day == Some(Day(now)) && v.dayStart == BaseToday(u, now)
  {
  }

  /** The check at `j` arms a pause exactly when it is ready and the losses counted reach the limit. */
  lemma ArmsPauseIff(limits: Limits, s: State, events: seq<Event>, j: nat)
    requires j < |events|
    ensures var u, now := After(limits, s, events[..j]), events[j].now;
      ArmsPause(limits, s, events, j) <==>
        events[j].Check? && Ready(limits, u, now) && limits.maxLosses > 0 && LossesToday(u, now) >= limits.maxLosses
  {
  }

  /** The day's loss as the drawdown limits measure it is the loss realized that day. */
  lemma DayLossIsBooked(limits: Limits, s: State, start: real, events: seq<Event>, k: nat)
    requires s.day == Some(Day(start)) && s.equity == s.dayStart && InTime(start, events) && k < |events|
    ensures var u, now := After(limits, s, events[..k]), events[k].now;
      && BaseToday(u, now) - u.equity == -DayPnl(events[..k], Day(now))
      && u.equity == s.equity + TotalPnl(events[..k])
  {
    var before, now := events[..k], events[k].now;
    assert InTime(start, before);
    DayIsBooked(limits, s, start, before);
    RollIsBooked(limits, s, start, before, now);
    EquityConserved(limits, s, before);
  }

  /** The check at `j` halts the day exactly when it is ready, the losses counted are below the limit
      and the loss of its UTC day is at a drawdown limit. */
  lemma HaltsDayIff(limits: Limits, s: State, start: real, events: seq<Event>, j: nat)
    requires s.day == Some(Day(start)) && s.equity == s.dayStart && InTime(start, events) && j < |events|
    ensures var u, now := After(limits, s, events[..j]), events[j].now;
      var loss := -DayPnl(events[..j], Day(now));
      HaltsDay(limits, s, events, j) <==>
        && events[j].Check? && Ready(limits, u, now)
        && (limits.maxLosses <= 0 || LossesToday(u, now) < limits.maxLosses)
        && !BelowDrawdown(limits, loss, s.equity + TotalPnl(events[..j]) + loss)
  {
    DayLossIsBooked(limits, s, start, events, j);
    if events[j].Check? {
      CheckInPlainTerms(limits, After(limits, s, events[..j]), events[j].now);
    }
  }

  lemma {:induction false} LastTradeIsATrade(limits: Limits, s: State, events: seq<Event>)
    requires s.lastTrade.None?
    ensures var t := After(limits, s, events);
      t.lastTrade.Some? ==> exists m :: 0 <= m < |events| && events[m].Trade? && events[m].now == t.lastTrade.value
  {
    if events != [] {
      var before := events[..|events| - 1];
      LastTradeIsATrade(limits, s, before);
      var u := After(limits, s, before);
      if events[|events| - 1].Check? && u.lastTrade.Some? {
        var m :| 0 <= m < |before| && before[m].Trade? && before[m].now == u.lastTrade.value;
        assert events[m] == before[m];
      }
    }
  }

  /** The cooldown has passed since every trade. */
  predicate TradesAreOld(limits: Limits, events: seq<Event>, k: nat, now: real)
    requires k <= |events|
  {
    forall m :: 0 <= m < k && events[m].Trade? ==> now - events[m].now >= limits.cooldownSec
  }

  lemma CooledIffTradesAreOld(limits: Limits, s: State, start: real, events: seq<Event>, k: nat, now: real)
    requires s.lastTrade.None? && InTime(start, events) && k <= |events|
    ensures var u := After(limits, s, events[..k]);
      (u.lastTrade.None? || now - u.lastTrade.value >= limits.cooldownSec) <==> TradesAreOld(limits, events, k, now)
  {
    var before := events[..k];
    assert InTime(start, before);
    LastTradeIsLatest(limits, s, start, before);
    LastTradeIsATrade(limits, s, before);
    assert forall m :: 0 <= m < k ==> before[m] == events[m];
  }

  /** A run from a fresh start, with every limit written out: a check is granted exactly when the day
      has not been halted, no loss pause runs, the cooldown has passed since every earlier trade,
      the losses counted are below their limit, and the loss realized that UTC day is below both
      drawdown limits. */
  lemma GrantedInPlainTerms(limits: Limits, s: State, start: real, events: seq<Event>, k: nat)
    requires s.day == Some(Day(start)) && s.equity == s.dayStart && s.lastTrade.None? && InTime(start, events)
    requires k < |events| && events[k].Check?
    ensures var u, now := After(limits, s, events[..k]), events[k].now;
      var loss := -DayPnl(events[..k], Day(now));
      Allowed(limits, s, events, k) <==>
        && !HaltedToday(u, now)
        && (u.pauseUntil.None? || now >= u.pauseUntil.value)
        && TradesAreOld(limits, events, k, now)
        && (limits.maxLosses <= 0 || LossesToday(u, now) < limits.maxLosses)
        && BelowDrawdown(limits, loss, s.equity + TotalPnl(events[..k]) + loss)
  {
    CheckInPlainTerms(limits, After(limits, s, events[..k]), events[k].now);
    DayLossIsBooked(limits, s, start, events, k);
    CooledIffTradesAreOld(limits, s, start, events, k, events[k].now);
  }

  /** And the two pauses it names have exactly these causes: the day is halted if and only if an
      earlier check of that day halted it, and a loss pause runs if and only if an earlier check
      armed one that has not ended. */
  lemma PausesHaveCauses(limits: Limits, s: State, start: real, events: seq<Event>, k: nat)
    requires !s.paused && s.pauseUntil.None? && InTime(start, events) && k < |events|
    ensures var u, now := After(limits, s, events[..k]), events[k].now;
      && (HaltedToday(u, now) <==>
            exists j :: 0 <= j < k && Day(events[j].now) == Day(now) && HaltsDay(limits, s, events, j))
      && (u.pauseUntil.Some? && now < u.pauseUntil.value <==>
            exists j :: 0 <= j < k && ArmsPause(limits, s, events, j) && now < events[j].now + limits.lossPauseSec)
  {
    var before, now := events[..k], events[k].now;
    assert InTime(start, before);
    PausedIffHalted(limits, s, start, before, now);
    LossPausedIffRunning(limits, s, start, before, now);
    forall j | 0 <= j < k
      ensures HaltsDay(limits, s, before, j) == HaltsDay(limits, s, events, j)
      ensures ArmsPause(limits, s, before, j) == ArmsPause(limits, s, events, j)
      ensures before[j] == events[j]
    {
      assert before[..j] == events[..j];
    }
  }

  // ---- Restart ----------------------------------------------------------------------------

  /** The JSON record of `save`, field by field. */
  datatype Record = Record(losses: int, lastTrade: Option<real>, dayStart: real, day: Option<int>,
                           equity: real, paused: bool, pauseUntil: Option<real>)

  function Saved(s: State): Record {
    Record(s.losses, s.lastTrade, s.dayStart, s.day, s.equity, s.paused, s.pauseUntil)
  }

  function Restored(s: State, r: Option<Record>): State {
    if r.None? then s
    else State(r.value.losses, r.value.lastTrade, r.value.dayStart, r.value.day, r.value.equity, r.value.paused,
               r.value.pauseUntil)
  }

  /** Bootstrap: a new manager loads the record and is given the account's balance. */
  function Restarted(s: State, balance: real, now: real): State {
    Initialised(Restored(State(0, None, 0.0, None, 0.0, false, None), Some(Saved(s))), balance, now)
  }

  /** A loss pause survives the restart: checks stay refused until it ends. */
  lemma LossPauseSurvivesRestart(limits: Limits, s: State, balance: real, now: real, events: seq<Event>, k: nat)
    requires s.pauseUntil.Some? && k < |events|
    requires forall e :: e in events ==> e.now < s.pauseUntil.value
    ensures !Allowed(limits, Restarted(s, balance, now), events, k)
  {
    assert events[k] in events;
    LossPauseHolds(limits, Restarted(s, balance, now), events[..k], s.pauseUntil.value);
  }

  /** A drawdown pause survives it too, and then even outlives its day: `init_equity` sets the
      current day without clearing the pause, so on the day of the restart, whichever it is,
      every check is refused. */
  lemma DrawdownPauseOutlivesItsDay(limits: Limits, s: State, balance: real, now: real, events: seq<Event>, k: nat)
    requires s.paused && k < |events|
    requires forall e :: e in events ==> Day(e.now) == Day(now)
    ensures !Allowed(limits, Restarted(s, balance, now), events, k)
  {
    assert events[k] in events;
    DrawdownPauseHolds(limits, Restarted(s, balance, now), events[..k], Day(now));
  }

  /** Whether a restart hands the day a pause is exact: with every timed limit out of the way, the
      first check of the restart day is granted if and only if the record was not paused, whatever
      day it was saved on. */
  lemma FirstCheckAfterRestart(limits: Limits, s: State, balance: real, now: real, check: real)
    requires Day(check) == Day(now)
    requires !LossPaused(s, check) && !CoolingDown(limits, s, check) && !StreakReached(limits, s)
    ensures Allowed(limits, Restarted(s, balance, now), [Check(check)], 0) <==> !s.paused
  {
    var r := Restarted(s, balance, now);
    assert [Check(check)][..0] == [];
    assert After(limits, r, []) == r;
    assert r.dayStart == r.equity;
  }

  /** What the account has lost since the start of its day, as the drawdown limits measure it. */
  function DayLoss(s: State): real {
    s.dayStart - s.equity
  }

  lemma {:induction false} DayStartKept(limits: Limits, s: State, events: seq<Event>, day: int)
    requires s.day == Some(day) && forall e :: e in events ==> Day(e.now) == day
    ensures After(limits, s, events).dayStart == s.dayStart && After(limits, s, events).day == Some(day)
  {
    if events != [] {
      assert events[|events| - 1] in events;
      DayStartKept(limits, s, events[..|events| - 1], day);
    }
  }

  /** A restart also forgets the loss of its own day: after it the drawdown limits are measured from
      the new balance alone, whatever had been lost before. */
  lemma RestartForgetsDayLoss(limits: Limits, s: State, balance: real, now: real, events: seq<Event>)
    requires forall e :: e in events ==> Day(e.now) == Day(now)
    ensures DayLoss(After(limits, Restarted(s, balance, now), events)) == -TotalPnl(events)
  {
    var r := Restarted(s, balance, now);
    EquityConserved(limits, r, events);
    DayStartKept(limits, r, events, Day(now));
  }

  /** So a loss that had reached a drawdown limit, but had not been checked yet, refuses the next check
      without a restart, and does not after one. */
  lemma RestartLiftsDrawdown(limits: Limits, s: State, balance: real, now: real, check: real)
    requires Day(check) == Day(now) && s.day == Some(Day(check)) && !s.paused && DrawdownReached(limits, s)
    requires !LossPaused(s, check) && !CoolingDown(limits, s, check) && !StreakReached(limits, s)
    ensures !Allowed(limits, s, [Check(check)], 0)
    ensures Allowed(limits, Restarted(s, balance, now), [Check(check)], 0)
  {
    assert [Check(check)][..0] == [];
    assert After(limits, s, []) == s;
    FirstCheckAfterRestart(limits, s, balance, now, check);
  }
}
