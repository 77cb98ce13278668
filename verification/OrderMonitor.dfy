/** Supervision of one live position (execution.py, `monitor_oco` with its two helpers, called the
    way monitor_runtime.py does: no scaling function) and the profit it reports to risk.

    One `Tick` holds everything the exchange, the clock and the callbacks answer during one pass
    of the loop.  A run is any sequence of ticks. */
module OrderMonitor {
  import opened Common

  const REPLACE_GUARD_SEC := 2.0
  const MIN_TRIGGER := 0.005

  datatype Kind = Plain | Algo

  /** What is true of an order when it is looked up. */
  datatype Status = Working | Executed | Ended | Unreachable

  datatype PriceReply = Price(p: real) | Missing | PriceError

  /** What became of replacing missing protections: refused at the exchange, placed without an order
      id (which raises an error nobody catches), or placed. */
  datatype Rebuild = Refused | IdMissing | Rebuilt(tp: Kind, sl: Kind)

  datatype Review = Stay | Leave | ReviewError

  datatype Tick = Tick(
    holdNow: real, holdClose: bool, holdPrice: PriceReply,
    tpStatus: Status, slStatus: Status, fillNow: real, cancelWorks: bool,
    safetyNow: real, protected: bool, rebuild: Rebuild, safetyDone: real,
    reviewNow: real, reviewStamp: real, review: Review, reviewClose: bool, reviewPrice: PriceReply,
    price: PriceReply, moveNow: real, moved: Option<(Kind, Kind)>, moveStamp: real)

  datatype Setup = Setup(side: Side, entry: real, tp: real, sl: real, qty: real, triggerPct: real,
                         startTs: real, maxHoldSec: real, safetySec: real, reviewSec: real)

  /** The loop's variables; `closes` counts accepted reduce-only closes. */
  datatype Guard = Guard(sl: real, breakEven: bool, tpKind: Kind, slKind: Kind,
                         lastReplace: real, lastSafety: real, lastReview: real, closes: nat)

  datatype Label = TP | SL | UNKNOWN | EARLY

  /** How a pass ends: on to the next phase, back to the top, returned, or an exception left the
      monitor. */
  datatype Verdict =
    | Proceed(g: Guard)
    | Again(g: Guard)
    | Return(g: Guard, result: Label, price: real)
    | Crash(g: Guard)

  function Trigger(s: Setup): real {
    MaxReal(s.triggerPct, MIN_TRIGGER)
  }

  function Begin(s: Setup, tpKind: Kind, slKind: Kind): Guard {
    Guard(s.sl, false, tpKind, slKind, 0.0, 0.0, 0.0, 0)
  }

  /** (open, filled) as the lookup reports them; None when the lookup itself raises.  An algo
      order is only searched for among the open ones, and counts as filled when absent. */
  function View(kind: Kind, status: Status): Option<(bool, bool)> {
    match kind
    case Plain => if status == Unreachable then None else Some((status == Working, status == Executed))
    case Algo => Some((status == Working, status != Working))
  }

  // ---- One pass, as a function ------------------------------------------------------------

  function HoldPhase(s: Setup, g: Guard, t: Tick): Verdict {
    if !(s.maxHoldSec > 0.0 && t.holdNow - s.startTs >= s.maxHoldSec) then Proceed(g)
    else if s.qty != 0.0 && !t.holdClose then Again(g)
    else Return(g.(closes := if s.qty != 0.0 then g.closes + 1 else g.closes), EARLY,
                if t.holdPrice.Price? then t.holdPrice.p else s.entry)
  }

  function FillPhase(s: Setup, g: Guard, t: Tick): Verdict {
    var tp := View(g.tpKind, t.tpStatus);
    var sl := View(g.slKind, t.slStatus);
    if tp.None? || sl.None? then Crash(g)
    else
      var settled := t.fillNow - g.lastReplace >= REPLACE_GUARD_SEC;
      var tpFilled, slFilled := settled && tp.value.1, settled && sl.value.1;
      if tpFilled && sl.value.0 then (if t.cancelWorks then Return(g, TP, s.tp) else Crash(g))
      else if slFilled && tp.value.0 then (if t.cancelWorks then Return(g, SL, g.sl) else Crash(g))
      else if tpFilled && slFilled then Return(g, UNKNOWN, g.sl)
      else Proceed(g)
  }

  function SafetyPhase(s: Setup, g: Guard, t: Tick): Verdict {
    if s.qty == 0.0 || t.safetyNow - g.lastSafety < s.safetySec then Proceed(g)
    else if t.protected || t.rebuild.Refused? then Proceed(g.(lastSafety := t.safetyDone))
    else if t.rebuild.IdMissing? then Crash(g)
    else Proceed(g.(lastSafety := t.safetyDone, tpKind := t.rebuild.tp, slKind := t.rebuild.sl))
  }

  function ReviewPhase(s: Setup, g: Guard, t: Tick): Verdict {
    if s.qty == 0.0 || s.entry == 0.0 || t.reviewNow - g.lastReview < s.reviewSec then Proceed(g)
    else
      var g' := g.(lastReview := t.reviewStamp);
      if g.breakEven || t.review != Leave then Proceed(g')
      else if !t.reviewClose then Again(g')
      else
        var closed := g'.(closes := g.closes + 1);
        match t.reviewPrice
        case Price(p) => Return(closed, EARLY, if p == 0.0 then s.entry else p)
        case Missing => Return(closed, EARLY, s.entry)
        case PriceError => Crash(closed)
  }

  predicate PastTrigger(s: Setup, price: real) {
    match s.side
    case Buy => price >= s.entry * (1.0 + Trigger(s))
    case Sell => price <= s.entry * (1.0 - Trigger(s))
  }

  function BreakEvenPhase(s: Setup, g: Guard, t: Tick): Verdict {
    if s.qty == 0.0 || s.entry == 0.0 || !t.price.Price? then Proceed(g)
    else if g.breakEven || !PastTrigger(s, t.price.p) || t.moveNow - g.lastReplace < REPLACE_GUARD_SEC then Proceed(g)
    else if t.moved.None? then Crash(g)
    else Proceed(g.(sl := s.entry, breakEven := true, lastReplace := t.moveStamp,
                    tpKind := t.moved.value.0, slKind := t.moved.value.1))
  }

  function Pass(s: Setup, g: Guard, t: Tick): Verdict {
    var v1 := HoldPhase(s, g, t);
    if !v1.Proceed? then v1
    else
      var v2 := FillPhase(s, v1.g, t);
      if !v2.Proceed? then v2
      else
        var v3 := SafetyPhase(s, v2.g, t);
        if !v3.Proceed? then v3
        else
          var v4 := ReviewPhase(s, v3.g, t);
          if !v4.Proceed? then v4 else BreakEvenPhase(s, v4.g, t)
  }

  /** The state after a whole sequence of ticks. */
  function Supervise(s: Setup, g: Guard, ticks: seq<Tick>): Verdict {
    if ticks == [] then Proceed(g)
    else
      var before := Supervise(s, g, ticks[..|ticks| - 1]);
      if before.Return? || before.Crash? then before else Pass(s, before.g, ticks[|ticks| - 1])
  }

  // ---- The loop ---------------------------------------------------------------------------

  method CheckOrderFillStatus(tpKind: Kind, slKind: Kind, lastReplace: real, t: Tick)
    returns (raised: bool, tpFilled: bool, slFilled: bool, tpOpen: bool, slOpen: bool)
    ensures raised <==> (tpKind.Plain? && t.tpStatus.Unreachable?) || (slKind.Plain? && t.slStatus.Unreachable?)
    ensures !raised ==> tpOpen == t.tpStatus.Working? && slOpen == t.slStatus.Working?
    ensures !raised ==> tpFilled == (t.fillNow - lastReplace >= REPLACE_GUARD_SEC && View(tpKind, t.tpStatus).value.1)
    ensures !raised ==> slFilled == (t.fillNow - lastReplace >= REPLACE_GUARD_SEC && View(slKind, t.slStatus).value.1)
  {
    raised, tpFilled, slFilled, tpOpen, slOpen := true, false, false, false, false;
    if tpKind == Plain {
      if t.tpStatus == Unreachable { return; }
      tpOpen, tpFilled := t.tpStatus !in {Executed, Ended}, t.tpStatus == Executed;
    } else {
      tpOpen := t.tpStatus == Working;
      tpFilled := !tpOpen;
    }
    if slKind == Plain {
      if t.slStatus == Unreachable { return; }
      slOpen, slFilled := t.slStatus !in {Executed, Ended}, t.slStatus == Executed;
    } else {
      slOpen := t.slStatus == Working;
      slFilled := !slOpen;
    }
    raised := false;
    if t.fillNow - lastReplace < REPLACE_GUARD_SEC {
      tpFilled, slFilled := false, false;
    }
  }

  /** Active review: leave early if the review says so and the close is accepted. */
  method ReviewExit(s: Setup, g: Guard, t: Tick) returns (v: Verdict)
    ensures v == ReviewPhase(s, g, t)
  {
    var state := g;
    if s.qty != 0.0 && s.entry != 0.0 && t.reviewNow - state.lastReview >= s.reviewSec {
      state := state.(lastReview := t.reviewStamp);
      if !state.breakEven && t.review == Leave {
        if !t.reviewClose {
          return Again(state);
        }
        state := state.(closes := state.closes + 1);
        match t.reviewPrice {
          case Price(p) => return Return(state, EARLY, if p == 0.0 then s.entry else p);
          case Missing => return Return(state, EARLY, s.entry);
          case PriceError => return Crash(state);
        }
      }
    }
    v := Proceed(state);
  }

  /** Once the price is past the trigger, protections are replaced with the stop at the entry. */
  method MoveToBreakEven(s: Setup, g: Guard, t: Tick) returns (v: Verdict)
    ensures v == BreakEvenPhase(s, g, t)
  {
    var state := g;
    if s.qty != 0.0 && s.entry != 0.0 && t.price.Price? {
      if !state.breakEven && PastTrigger(s, t.price.p) && t.moveNow - state.lastReplace >= REPLACE_GUARD_SEC {
        if t.moved.None? {
          return Crash(state);
        }
        state := state.(tpKind := t.moved.value.0, slKind := t.moved.value.1,
                        sl := s.entry, breakEven := true, lastReplace := t.moveStamp);
      }
    }
    v := Proceed(state);
  }

  method RunSafetyCheck(s: Setup, g: Guard, t: Tick) returns (v: Verdict)
    requires s.qty != 0.0
    ensures v == SafetyPhase(s, g, t)
  {
    if t.safetyNow - g.lastSafety < s.safetySec {
      return Proceed(g);
    }
    var state := g;
    if !t.protected {
      match t.rebuild {
        case Refused =>
        case IdMissing => return Crash(g);
        case Rebuilt(tp, sl) => state := state.(tpKind := tp, slKind := sl);
      }
    }
    v := Proceed(state.(lastSafety := t.safetyDone));
  }

  /** The body of the loop: it updates the loop's variables and says how the pass ended. */
  method OnePass(s: Setup, g: Guard, t: Tick) returns (v: Verdict)
    ensures v == Pass(s, g, t)
  {
    var state := g;
    if s.maxHoldSec > 0.0 && t.holdNow - s.startTs >= s.maxHoldSec {
      if s.qty != 0.0 {
        if !t.holdClose {
          return Again(state);
        }
        state := state.(closes := state.closes + 1);
      }
      return Return(state, EARLY, match t.holdPrice case Price(p) => p case _ => s.entry);
    }

    var raised, tpFilled, slFilled, tpOpen, slOpen :=
      CheckOrderFillStatus(state.tpKind, state.slKind, state.lastReplace, t);
    if raised {
      return Crash(state);
    }
    if tpFilled && slOpen {
      if t.cancelWorks { return Return(state, TP, s.tp); } else { return Crash(state); }
    }
    if slFilled && tpOpen {
      if t.cancelWorks { return Return(state, SL, state.sl); } else { return Crash(state); }
    }
    if tpFilled && slFilled {
      return Return(state, UNKNOWN, state.sl);
    }

    v := Proceed(state);
    if s.qty != 0.0 {
      v := RunSafetyCheck(s, state, t);
      if !v.Proceed? {
        return;
      }
    }

    v := ReviewExit(s, v.g, t);
    if v.Proceed? {
      v := MoveToBreakEven(s, v.g, t);
    }
  }

  lemma SuperviseStep(s: Setup, g: Guard, ticks: seq<Tick>, k: nat)
    requires k < |ticks|
    ensures var before := Supervise(s, g, ticks[..k]);
      Supervise(s, g, ticks[..k + 1]) ==
      if before.Return? || before.Crash? then before else Pass(s, before.g, ticks[k])
  {
    assert ticks[..k + 1][..k] == ticks[..k];
  }

  lemma {:induction false} SuperviseStops(s: Setup, g: Guard, ticks: seq<Tick>, k: nat)
    requires k <= |ticks|
    requires var v := Supervise(s, g, ticks[..k]); v.Return? || v.Crash?
    ensures Supervise(s, g, ticks) == Supervise(s, g, ticks[..k])
    decreases |ticks|
  {
    if k < |ticks| {
      var before := ticks[..|ticks| - 1];
      assert before[..k] == ticks[..k];
      SuperviseStops(s, g, before, k);
    } else {
      assert ticks[..k] == ticks;
    }
  }

  /** `monitor_oco` over the given ticks. */
  method MonitorOco(s: Setup, tpRef: Kind, slRef: Kind, ticks: seq<Tick>) returns (v: Verdict)
    ensures v == Supervise(s, Begin(s, tpRef, slRef), ticks)
  {
    v := Proceed(Begin(s, tpRef, slRef));
    for k := 0 to |ticks|
      invariant v == Supervise(s, Begin(s, tpRef, slRef), ticks[..k])
      invariant !v.Return? && !v.Crash?
    {
      SuperviseStep(s, Begin(s, tpRef, slRef), ticks, k);
      v := OnePass(s, v.g, ticks[k]);
      if v.Return? || v.Crash? {
        SuperviseStops(s, Begin(s, tpRef, slRef), ticks, k + 1);
        return;
      }
    }
    assert ticks[..|ticks|] == ticks;
  }

  // ---- What a run keeps -------------------------------------------------------------------

  predicate Triggers(s: Setup, t: Tick) {
    t.price.Price? && PastTrigger(s, t.price.p)
  }

  /** The price had passed the trigger, by at least 0.5%, at some tick so far. */
  predicate TriggerSeen(s: Setup, ticks: seq<Tick>) {
    exists k :: 0 <= k < |ticks| && Triggers(s, ticks[k])
  }

  /** The stop is where it started until the break-even move, which needs the trigger, and at the
      entry from then on. */
  predicate StopSound(s: Setup, g: Guard, seen: bool) {
    && (g.sl == if g.breakEven then s.entry else s.sl)
    && (g.breakEven ==> seen && s.qty != 0.0 && s.entry != 0.0)
    && (!g.breakEven ==> g.lastReplace == 0.0)
  }

  /** At most one close is accepted, only an early exit follows one, and a fill is never believed
      within two seconds of the break-even replacement. */
  predicate EndSound(s: Setup, v: Verdict, fillNow: real) {
    match v
    case Proceed(g) => g.closes == 0
    case Again(g) => g.closes == 0
    case Crash(g) => g.closes <= 1
    case Return(g, result, price) =>
      && g.closes == (if result == EARLY && s.qty != 0.0 then 1 else 0)
      && (result == TP ==> price == s.tp)
      && (result == SL ==> price == g.sl)
      && (result != EARLY ==> fillNow - g.lastReplace >= REPLACE_GUARD_SEC)
  }

  predicate Sound(s: Setup, v: Verdict, fillNow: real, seen: bool) {
    StopSound(s, v.g, seen) && EndSound(s, v, fillNow)
  }

  lemma EarlyPhasesSound(s: Setup, g: Guard, t: Tick, seen: bool)
    requires StopSound(s, g, seen) && g.closes == 0
    ensures Sound(s, HoldPhase(s, g, t), t.fillNow, seen)
    ensures Sound(s, FillPhase(s, g, t), t.fillNow, seen)
  {
  }

  lemma LatePhasesSound(s: Setup, g: Guard, t: Tick, seen: bool)
    requires StopSound(s, g, seen) && g.closes == 0
    ensures Sound(s, SafetyPhase(s, g, t), t.fillNow, seen)
    ensures Sound(s, ReviewPhase(s, g, t), t.fillNow, seen)
    ensures Sound(s, BreakEvenPhase(s, g, t), t.fillNow, seen || Triggers(s, t))
  {
  }

  lemma PassSound(s: Setup, g: Guard, t: Tick, seen: bool)
    requires StopSound(s, g, seen) && g.closes == 0
    ensures Sound(s, Pass(s, g, t), t.fillNow, seen || Triggers(s, t))
  {
    EarlyPhasesSound(s, g, t, seen);
    var v1 := HoldPhase(s, g, t);
    if v1.Proceed? {
      EarlyPhasesSound(s, v1.g, t, seen);
      var v2 := FillPhase(s, v1.g, t);
      if v2.Proceed? {
        LatePhasesSound(s, v2.g, t, seen);
        var v3 := SafetyPhase(s, v2.g, t);
        if v3.Proceed? {
          LatePhasesSound(s, v3.g, t, seen);
          var v4 := ReviewPhase(s, v3.g, t);
          if v4.Proceed? {
            LatePhasesSound(s, v4.g, t, seen);
          }
        }
      }
    }
  }

  predicate IsOver(v: Verdict) {
    v.Return? || v.Crash?
  }

  /** How many passes the loop makes on these ticks. */
  function Passes(s: Setup, g: Guard, ticks: seq<Tick>): (n: nat)
    ensures n <= |ticks| && (ticks != [] ==> n > 0)
  {
    if ticks == [] then 0
    else
      var before := ticks[..|ticks| - 1];
      if IsOver(Supervise(s, g, before)) then Passes(s, g, before) else |ticks|
  }

  /** The last pass of the loop is the one that decides how it ended. */
  lemma {:induction false} LastPassDecides(s: Setup, g: Guard, ticks: seq<Tick>)
    requires ticks != []
    ensures var k := Passes(s, g, ticks) - 1;
      var w := Supervise(s, g, ticks[..k]);
      !IsOver(w) && Supervise(s, g, ticks) == Pass(s, w.g, ticks[k])
  {
    var before := ticks[..|ticks| - 1];
    if IsOver(Supervise(s, g, before)) {
      LastPassDecides(s, g, before);
      var k := Passes(s, g, before) - 1;
      assert before[..k] == ticks[..k];
    }
  }

  lemma TriggerSeenLonger(s: Setup, before: seq<Tick>, t: Tick)
    ensures TriggerSeen(s, before + [t]) == (TriggerSeen(s, before) || Triggers(s, t))
  {
    var all := before + [t];
    assert all[|before|] == t;
    if TriggerSeen(s, before) {
      var k :| 0 <= k < |before| && Triggers(s, before[k]);
      assert Triggers(s, all[k]);
    }
  }

  /** The outcome of a run is sound, with the clock of the pass that decided it. */
  predicate RunSound(s: Setup, g: Guard, ticks: seq<Tick>) {
    && StopSound(s, Supervise(s, g, ticks).g, TriggerSeen(s, ticks))
    && if ticks == [] then Supervise(s, g, ticks) == Proceed(g)
       else EndSound(s, Supervise(s, g, ticks), ticks[Passes(s, g, ticks) - 1].fillNow)
  }

  lemma OverStaysSound(s: Setup, g: Guard, before: seq<Tick>, t: Tick)
    requires RunSound(s, g, before) && IsOver(Supervise(s, g, before))
    ensures RunSound(s, g, before + [t])
  {
    assert (before + [t])[..|before|] == before;
    TriggerSeenLonger(s, before, t);
  }

  lemma OpenStaysSound(s: Setup, g: Guard, before: seq<Tick>, t: Tick)
    requires RunSound(s, g, before) && !IsOver(Supervise(s, g, before)) && g.closes == 0
    ensures RunSound(s, g, before + [t])
  {
    assert (before + [t])[..|before|] == before;
    TriggerSeenLonger(s, before, t);
    PassSound(s, Supervise(s, g, before).g, t, TriggerSeen(s, before));
  }

  /** Over any run: the stop is the original one until the break-even move and at the entry after
      it, the move needs the trigger, and one close at most is accepted.  The pass that ended the
      run did not believe a fill within two seconds of the move. */
  lemma {:induction false} SuperviseSound(s: Setup, tpKind: Kind, slKind: Kind, ticks: seq<Tick>)
    ensures RunSound(s, Begin(s, tpKind, slKind), ticks)
  {
    if ticks != [] {
      var g0, before, t := Begin(s, tpKind, slKind), ticks[..|ticks| - 1], ticks[|ticks| - 1];
      assert ticks == before + [t];
      SuperviseSound(s, tpKind, slKind, before);
      if IsOver(Supervise(s, g0, before)) {
        OverStaysSound(s, g0, before, t);
      } else {
        OpenStaysSound(s, g0, before, t);
      }
    }
  }

  /** The guard after the first `k` ticks. */
  function GuardAfter(s: Setup, g: Guard, ticks: seq<Tick>, k: nat): Guard
    requires k <= |ticks|
  {
    Supervise(s, g, ticks[..k]).g
  }

  lemma PassKeepsMove(s: Setup, g: Guard, t: Tick)
    ensures g.breakEven ==> Pass(s, g, t).g.breakEven
  {
    var v1 := HoldPhase(s, g, t);
    if v1.Proceed? {
      var v2 := FillPhase(s, v1.g, t);
      assert v2.g.breakEven == g.breakEven;
      if v2.Proceed? {
        var v3 := SafetyPhase(s, v2.g, t);
        assert v3.g.breakEven == g.breakEven;
        assert ReviewPhase(s, v3.g, t).g.breakEven == g.breakEven;
      }
    }
  }

  lemma StepKeepsMove(s: Setup, g: Guard, ticks: seq<Tick>, k: nat)
    requires k < |ticks| && GuardAfter(s, g, ticks, k).breakEven
    ensures GuardAfter(s, g, ticks, k + 1).breakEven
  {
    SuperviseStep(s, g, ticks, k);
    PassKeepsMove(s, GuardAfter(s, g, ticks, k), ticks[k]);
  }

  /** The break-even move is never taken back, from whatever guard the run starts, */
  lemma {:induction false} MoveIsKept(s: Setup, g: Guard, ticks: seq<Tick>, a: nat, b: nat)
    requires a <= b <= |ticks| && GuardAfter(s, g, ticks, a).breakEven
    ensures GuardAfter(s, g, ticks, b).breakEven
    decreases b
  {
    if a < b {
      MoveIsKept(s, g, ticks, a, b - 1);
      StepKeepsMove(s, g, ticks, b - 1);
    }
  }

  /** so the stop moves at most once in a run, and only to the entry: once it differs from an
      earlier stop it is the entry and never changes again. */
  lemma StopMovesOnce(s: Setup, tpKind: Kind, slKind: Kind, ticks: seq<Tick>, a: nat, b: nat, c: nat)
    requires a <= b <= c <= |ticks|
    ensures var g0 := Begin(s, tpKind, slKind);
      var early, mid, late := GuardAfter(s, g0, ticks, a), GuardAfter(s, g0, ticks, b), GuardAfter(s, g0, ticks, c);
      early.sl != mid.sl ==>
        && early.sl == s.sl && mid.sl == late.sl == s.entry
        && !early.breakEven && mid.breakEven && late.breakEven && TriggerSeen(s, ticks[..b])
  {
    SuperviseSound(s, tpKind, slKind, ticks[..a]);
    SuperviseSound(s, tpKind, slKind, ticks[..b]);
    SuperviseSound(s, tpKind, slKind, ticks[..c]);
    var g0 := Begin(s, tpKind, slKind);
    if GuardAfter(s, g0, ticks, a).breakEven { MoveIsKept(s, g0, ticks, a, b); }
    if GuardAfter(s, g0, ticks, b).breakEven { MoveIsKept(s, g0, ticks, b, c); }
  }

  /** As good for the position as the other stop, or better. */
  predicate AtLeastAsFavourable(side: Side, stop: real, other: real) {
    if side == Buy then stop >= other else stop <= other
  }

  /** A stop that starts on the losing side of the entry only ever moves in the position's favour,
      between any two moments of a run, and never past the entry; one that starts on the winning
      side is never moved in its favour. */
  lemma StopOnlyImproves(s: Setup, tpKind: Kind, slKind: Kind, ticks: seq<Tick>, a: nat, b: nat)
    requires a <= b <= |ticks|
    ensures var g0 := Begin(s, tpKind, slKind);
      var early, late := GuardAfter(s, g0, ticks, a).sl, GuardAfter(s, g0, ticks, b).sl;
      if AtLeastAsFavourable(s.side, s.entry, s.sl)
      then AtLeastAsFavourable(s.side, late, early) && AtLeastAsFavourable(s.side, s.entry, late)
      else AtLeastAsFavourable(s.side, early, late)
  {
    SuperviseSound(s, tpKind, slKind, ticks[..a]);
    SuperviseSound(s, tpKind, slKind, ticks[..b]);
    var g0 := Begin(s, tpKind, slKind);
    if GuardAfter(s, g0, ticks, a).breakEven { MoveIsKept(s, g0, ticks, a, b); }
  }

  /** For a long whose stop starts below the entry the stop only rises, up to the entry; for a short
      whose stop starts above it, it only falls. */
  lemma LosingStopTightens(s: Setup, tpKind: Kind, slKind: Kind, ticks: seq<Tick>, a: nat, b: nat)
    requires a <= b <= |ticks| && (if s.side == Buy then s.sl <= s.entry else s.sl >= s.entry)
    ensures var g0 := Begin(s, tpKind, slKind);
      var early, late := GuardAfter(s, g0, ticks, a).sl, GuardAfter(s, g0, ticks, b).sl;
      if s.side == Buy then early <= late <= s.entry else s.entry <= late <= early
  {
    StopOnlyImproves(s, tpKind, slKind, ticks, a, b);
  }

  // ---- Does a result mean an execution, and an execution a result? ------------------------

  /** A pass believes the take-profit filled, or the stop. */
  predicate Answers(s: Setup, g: Guard, t: Tick, result: Label) {
    var v := FillPhase(s, g, t);
    v.Return? && v.result == result
  }

  /** A tick that looks at the orders when the guard time has passed. */
  function Sighting(g: Guard, tp: Status, sl: Status): Tick {
    Tick(0.0, true, Missing, tp, sl, g.lastReplace + REPLACE_GUARD_SEC, true, 0.0, true, Refused, 0.0,
         0.0, 0.0, Stay, true, Missing, Missing, 0.0, None, 0.0)
  }

  /** A TP result means the take-profit was executed exactly for a plain order: an algo order that
      was cancelled, or whose lookup failed, counts as filled. */
  lemma TpMeansExecutedIffPlain(s: Setup, g: Guard)
    ensures (forall t: Tick :: Answers(s, g, t, TP) ==> t.tpStatus == Executed) <==> g.tpKind == Plain
  {
    if g.tpKind == Algo {
      assert Answers(s, g, Sighting(g, Unreachable, Working), TP);
    }
  }

  /** The same for an SL result and the stop. */
  lemma SlMeansExecutedIffPlain(s: Setup, g: Guard)
    ensures (forall t: Tick :: Answers(s, g, t, SL) ==> t.slStatus == Executed) <==> g.slKind == Plain
  {
    if g.slKind == Algo {
      assert Answers(s, g, Sighting(g, Working, Unreachable), SL);
    }
  }

  /** Both lookups answer, the guard time has passed and the clean-up works. */
  predicate SeesOrders(g: Guard, t: Tick) {
    && View(g.tpKind, t.tpStatus).Some? && View(g.slKind, t.slStatus).Some?
    && t.fillNow - g.lastReplace >= REPLACE_GUARD_SEC && t.cancelWorks
  }

  /** What a pass makes of an executed take-profit depends on the stop: TP exactly when the stop
      still works, nothing at all exactly when it is a plain order that has ended, and UNKNOWN,
      which tells risk nothing, otherwise. */
  lemma ExecutedTakeProfit(s: Setup, g: Guard, t: Tick)
    requires SeesOrders(g, t) && t.tpStatus == Executed
    ensures Answers(s, g, t, TP) <==> t.slStatus == Working
    ensures FillPhase(s, g, t) == Proceed(g) <==> g.slKind == Plain && t.slStatus == Ended
    ensures FillPhase(s, g, t).Return? && !Answers(s, g, t, TP) ==> Answers(s, g, t, UNKNOWN)
  {
  }

  lemma ExecutedStop(s: Setup, g: Guard, t: Tick)
    requires SeesOrders(g, t) && t.slStatus == Executed
    ensures Answers(s, g, t, SL) <==> t.tpStatus == Working
    ensures FillPhase(s, g, t) == Proceed(g) <==> g.tpKind == Plain && t.tpStatus == Ended
    ensures FillPhase(s, g, t).Return? && !Answers(s, g, t, SL) ==> Answers(s, g, t, UNKNOWN)
  {
  }

  /** One of two plain orders is executed, the other has ended, and neither is replaced. */
  predicate DeadPair(t: Tick) {
    && ((t.tpStatus == Executed && t.slStatus == Ended) || (t.tpStatus == Ended && t.slStatus == Executed))
    && (t.protected || !t.rebuild.Rebuilt?) && t.moved.None?
  }

  lemma DeadPairPass(s: Setup, g: Guard, t: Tick)
    requires DeadPair(t) && g.tpKind == Plain && g.slKind == Plain
    ensures var v := Pass(s, g, t); v.g.tpKind == Plain && v.g.slKind == Plain && (v.Return? ==> v.result == EARLY)
  {
    if t.tpStatus == Executed && SeesOrders(g, t) {
      ExecutedTakeProfit(s, g, t);
    } else if SeesOrders(g, t) {
      ExecutedStop(s, g, t);
    }
    assert FillPhase(s, g, t) == Proceed(g);
  }

  /** That execution is never reported, however long the loop goes on: a run either stays in the
      loop, leaves by exception, or ends in an early exit of its own. */
  lemma {:induction false} DeadPairIsNeverReported(s: Setup, ticks: seq<Tick>)
    requires forall t :: t in ticks ==> DeadPair(t)
    ensures var v := Supervise(s, Begin(s, Plain, Plain), ticks);
      && v.g.tpKind == Plain && v.g.slKind == Plain
      && (v.Return? ==> v.result == EARLY)
  {
    if ticks != [] {
      var before, t := ticks[..|ticks| - 1], ticks[|ticks| - 1];
      assert t in ticks && DeadPair(t);
      DeadPairIsNeverReported(s, before);
      var w := Supervise(s, Begin(s, Plain, Plain), before);
      if !IsOver(w) {
        DeadPairPass(s, w.g, t);
      }
    }
  }

  // ---- The break-even move in plain arithmetic --------------------------------------------

  /** The price has moved at least the share `x` of the entry in the position's favour. */
  predicate MovedInFavour(s: Setup, price: real, x: real) {
    (if s.side == Buy then price - s.entry else s.entry - price) >= s.entry * x
  }

  lemma SharesOrdered(entry: real, a: real, b: real)
    requires entry > 0.0 && a <= b
    ensures entry * a <= entry * b
  {
    assert 0.0 <= entry * (b - a);
  }

  lemma Distributes(entry: real, x: real)
    ensures entry * (1.0 + x) == entry + entry * x && entry * (1.0 - x) == entry - entry * x
  {
  }

  /** The trigger is passed exactly when the price has moved by the configured share and by 0.5%. */
  lemma TriggerIsShare(s: Setup, price: real)
    requires s.entry > 0.0
    ensures PastTrigger(s, price) <==> MovedInFavour(s, price, s.triggerPct) && MovedInFavour(s, price, 0.005)
  {
    var x := Trigger(s);
    Distributes(s.entry, x);
    SharesOrdered(s.entry, s.triggerPct, x);
    SharesOrdered(s.entry, 0.005, x);
  }

  /** No stop moves unless some price of the run so far had moved that far in the position's favour. */
  lemma BreakEvenNeedsMove(s: Setup, tpKind: Kind, slKind: Kind, ticks: seq<Tick>)
    requires s.entry > 0.0 && Supervise(s, Begin(s, tpKind, slKind), ticks).g.breakEven
    ensures exists k :: (0 <= k < |ticks| && ticks[k].price.Price?
                         && MovedInFavour(s, ticks[k].price.p, s.triggerPct)
                         && MovedInFavour(s, ticks[k].price.p, 0.005))
  {
    SuperviseSound(s, tpKind, slKind, ticks);
    var k :| 0 <= k < |ticks| && Triggers(s, ticks[k]);
    TriggerIsShare(s, ticks[k].price.p);
  }

  /** Nothing else ends or diverts the pass: no hold limit, both orders working, protections in place
      and nobody asks to leave. */
  predicate Uneventful(s: Setup, t: Tick) {
    && (s.maxHoldSec <= 0.0 || t.holdNow - s.startTs < s.maxHoldSec)
    && t.tpStatus == Working && t.slStatus == Working
    && t.protected && t.review == Stay
  }

  /** On an uneventful pass with a price, more than two seconds after the last replacement, the stop
      moves to the entry exactly when the price has moved that far. */
  lemma BreakEvenMovesIff(s: Setup, g: Guard, t: Tick)
    requires s.entry > 0.0 && s.qty != 0.0 && Uneventful(s, t) && !g.breakEven
    requires t.price.Price? && t.moveNow - g.lastReplace >= 2.0 && t.moved.Some?
    ensures var v := Pass(s, g, t);
      && v.Proceed?
      && (v.g.breakEven <==> MovedInFavour(s, t.price.p, s.triggerPct) && MovedInFavour(s, t.price.p, 0.005))
      && v.g.sl == (if v.g.breakEven then s.entry else g.sl)
      && (v.g.breakEven ==> v.g.tpKind == t.moved.value.0 && v.g.slKind == t.moved.value.1
                            && v.g.lastReplace == t.moveStamp)
  {
    TriggerIsShare(s, t.price.p);
  }

  // ---- The other exits in plain terms -----------------------------------------------------

  /** The hold limit ends the run exactly when it is set, reached, and the close is accepted or there
      is nothing to close; the exit price is the market's, or the entry when it cannot be read. */
  lemma HoldLimitEndsIff(s: Setup, g: Guard, t: Tick)
    requires t.tpStatus == Working && t.slStatus == Working && t.protected && t.review == Stay
    requires t.moved.Some?
    ensures var v := Pass(s, g, t);
      && (v.Return? <==> s.maxHoldSec > 0.0 && t.holdNow - s.startTs >= s.maxHoldSec
                         && (s.qty == 0.0 || t.holdClose))
      && (v.Return? ==> v.result == EARLY && v.price == (if t.holdPrice.Price? then t.holdPrice.p else s.entry))
  {
  }

  /** A due review that asks to leave ends the run exactly when the stop has not been moved, the close
      is accepted and the price lookup does not raise; the exit price is the market's, or the entry
      when it is missing or zero. */
  lemma ReviewEndsIff(s: Setup, g: Guard, t: Tick)
    requires (s.maxHoldSec <= 0.0 || t.holdNow - s.startTs < s.maxHoldSec)
    requires t.tpStatus == Working && t.slStatus == Working && t.protected && t.moved.Some?
    requires s.qty != 0.0 && s.entry != 0.0 && t.reviewNow - g.lastReview >= s.reviewSec && t.review == Leave
    ensures var v := Pass(s, g, t);
      && (v.Return? <==> !g.breakEven && t.reviewClose && t.reviewPrice != PriceError)
      && (v.Return? ==> v.result == EARLY)
      && (v.Return? ==> v.price == if t.reviewPrice.Price? && t.reviewPrice.p != 0.0 then t.reviewPrice.p else s.entry)
      && v.g.lastReview == t.reviewStamp
  {
  }

  /** Missing protections are replaced exactly when the check is due, and only then the orders change. */
  lemma SafetyReplacesIff(s: Setup, g: Guard, t: Tick)
    requires s.qty != 0.0
    ensures var v := SafetyPhase(s, g, t);
      var due := t.safetyNow - g.lastSafety >= s.safetySec;
      && (v.Crash? <==> due && !t.protected && t.rebuild == IdMissing)
      && (v.Proceed? ==> v.g.lastSafety == if due then t.safetyDone else g.lastSafety)
      && (v.Proceed? && due && !t.protected && t.rebuild.Rebuilt? ==>
            v.g.tpKind == t.rebuild.tp && v.g.slKind == t.rebuild.sl)
      && (v.Proceed? && !(due && !t.protected && t.rebuild.Rebuilt?) ==>
            v.g.tpKind == g.tpKind && v.g.slKind == g.slKind)
  {
  }

  /** A run starts with its timers at zero, so its first pass checks the protections and reviews the
      position as soon as the clock itself is past the interval. */
  lemma FirstPassIsDue(s: Setup, tpKind: Kind, slKind: Kind, t: Tick)
    requires s.qty != 0.0 && s.entry != 0.0 && Uneventful(s, t) && t.moved.Some?
    ensures var g := Supervise(s, Begin(s, tpKind, slKind), [t]).g;
      && g.lastSafety == (if t.safetyNow >= s.safetySec then t.safetyDone else 0.0)
      && g.lastReview == (if t.reviewNow >= s.reviewSec then t.reviewStamp else 0.0)
      && g.closes == 0
  {
    SuperviseStep(s, Begin(s, tpKind, slKind), [t], 0);
  }

  // ---- Early exits ------------------------------------------------------------------------

  /** An early exit was closed at the exchange first, exactly when there was a quantity to close. */
  lemma EarlyExitWasClosed(s: Setup, tpKind: Kind, slKind: Kind, ticks: seq<Tick>)
    requires var v := Supervise(s, Begin(s, tpKind, slKind), ticks); v.Return? && v.result == EARLY
    ensures Supervise(s, Begin(s, tpKind, slKind), ticks).g.closes == 1 <==> s.qty != 0.0
  {
    SuperviseSound(s, tpKind, slKind, ticks);
  }

  // ---- What risk is told ------------------------------------------------------------------

  function BookedProfit(s: Setup, price: real): real {
    var pnl := (price - s.entry) * s.qty;
    if s.side == Sell then -pnl else pnl
  }

  /** `run_position_monitor` after the monitor returned: the realized profit it reports, or None
      when it reports nothing. */
  function Reported(s: Setup, v: Verdict): Option<real> {
    if v.Return? && v.result != UNKNOWN then Some(BookedProfit(s, v.price)) else None
  }

  /** The profit of closing the position at `price`. */
  function ProfitAt(s: Setup, price: real): real {
    s.qty * (if s.side == Buy then price - s.entry else s.entry - price)
  }

  lemma SignedProfit(price: real, entry: real, qty: real)
    ensures (price - entry) * qty == qty * (price - entry)
    ensures -((price - entry) * qty) == qty * (entry - price)
  {
    var d := price - entry;
    calc {
      -(d * qty);
      (-d) * qty;
      qty * (-d);
    }
    assert -d == entry - price;
  }

  lemma ReportedIsProfit(s: Setup, price: real)
    ensures BookedProfit(s, price) == ProfitAt(s, price)
  {
    SignedProfit(price, s.entry, s.qty);
    if s.side == Buy {
      assert BookedProfit(s, price) == (price - s.entry) * s.qty == ProfitAt(s, price);
    } else {
      assert BookedProfit(s, price) == -((price - s.entry) * s.qty) == ProfitAt(s, price);
    }
  }

  /** A take-profit or stop result tells risk exactly the profit at the take-profit, the profit
      at the original stop, or 0 once the stop had moved to the entry, which needs the trigger. */
  lemma ReportedProfit(s: Setup, tpKind: Kind, slKind: Kind, ticks: seq<Tick>)
    ensures var v := Supervise(s, Begin(s, tpKind, slKind), ticks);
      v.Return? ==>
        match v.result
        case TP => Reported(s, v) == Some(ProfitAt(s, s.tp))
        case SL => Reported(s, v) == Some(if v.g.breakEven then 0.0 else ProfitAt(s, s.sl))
                   && (v.g.breakEven ==> TriggerSeen(s, ticks))
        case EARLY => Reported(s, v) == Some(ProfitAt(s, v.price))
        case UNKNOWN => Reported(s, v) == None
  {
    SuperviseSound(s, tpKind, slKind, ticks);
    var v := Supervise(s, Begin(s, tpKind, slKind), ticks);
    if v.Return? && v.result != UNKNOWN {
      ReportedIsProfit(s, v.price);
    }
  }

  /** The orphan monitor (monitor_orphan.py) books the profit of every result it gets. */
  function OrphanReported(s: Setup, v: Verdict): Option<real> {
    if v.Return? then Some(BookedProfit(s, v.price)) else None
  }

  lemma NoEarlyExit(s: Setup, g: Guard, t: Tick)
    requires s.maxHoldSec == 0.0 && t.review == Stay
    ensures var v := Pass(s, g, t);
      v.g.closes == g.closes && (v.Return? ==> v.result != EARLY && (v.result == UNKNOWN ==> v.price == v.g.sl))
  {
  }

  /** It sets neither a hold limit nor a review, so it never exits early, */
  lemma {:induction false} OrphanNeverExitsEarly(s: Setup, g: Guard, ticks: seq<Tick>)
    requires s.maxHoldSec == 0.0 && forall t :: t in ticks ==> t.review == Stay
    ensures var v := Supervise(s, g, ticks);
      v.g.closes == g.closes && (v.Return? ==> v.result != EARLY && (v.result == UNKNOWN ==> v.price == v.g.sl))
  {
    if ticks != [] {
      var before, t := ticks[..|ticks| - 1], ticks[|ticks| - 1];
      assert t in ticks;
      OrphanNeverExitsEarly(s, g, before);
      NoEarlyExit(s, Supervise(s, g, before).g, t);
    }
  }

  /** and the two callers book the same except when both orders look filled: then the live monitor
      books nothing and the orphan monitor the profit at the stop. */
  lemma OrphanBooksUnknownAtStop(s: Setup, tpKind: Kind, slKind: Kind, ticks: seq<Tick>)
    requires s.maxHoldSec == 0.0 && forall t :: t in ticks ==> t.review == Stay
    ensures var v := Supervise(s, Begin(s, tpKind, slKind), ticks);
      && (v.Return? ==> v.result != EARLY)
      && (OrphanReported(s, v) == Reported(s, v) <==> !(v.Return? && v.result == UNKNOWN))
      && (v.Return? && v.result == UNKNOWN ==>
            Reported(s, v) == None &&
            OrphanReported(s, v) == Some(if v.g.breakEven then 0.0 else ProfitAt(s, s.sl)))
  {
    OrphanNeverExitsEarly(s, Begin(s, tpKind, slKind), ticks);
    SuperviseSound(s, tpKind, slKind, ticks);
    ReportedIsProfit(s, Supervise(s, Begin(s, tpKind, slKind), ticks).g.sl);
  }
}
