/** Limit entry with market fallback (execution.py, `place_limit_with_market_fallback` and
    `_first_positive_float`), in live mode, together with the order at the exchange: what it fills
    while it is polled, until it is cancelled, and afterwards. */
module LimitFallback {
  import opened Common
  import opened Rounding

  /** The limit order as it is sent, with the rounded price and the prices of the exchange's reply
      (None when absent or unreadable). */
  datatype Order = Order(price: real, qty: real, step: real, avg: Option<real>, quoted: Option<real>)

  /** What a poll reads: what the order has filled by then, whether the reply is lost, and the
      prices of the reply. */
  datatype Poll = Poll(fill: real, lost: bool, avg: Option<real>, quoted: Option<real>)

  /** What happens to the limit order while there is time: it fills in parts, and is polled. */
  datatype Event = Fills(amount: real) | Polled(lost: bool, avg: Option<real>, quoted: Option<real>)

  /** The market order: what it fills, whether its call raises, and what the reply says. */
  datatype Market = Market(fill: real, raises: bool, executed: Option<real>, avg: Option<real>, quoted: Option<real>)

  /** The exchange during one call: the life of the limit order until the cancel would arrive,
      whether the cancel works, and the parts it still fills if nothing stops it. */
  datatype Exchange = Exchange(accepted: bool, log: seq<Event>, cancelWorks: bool, afterwards: seq<real>,
                               market: Market)

  datatype ExecType = Maker | Taker | Hybrid

  datatype Entry = Entered(qty: real, avg: real, kind: ExecType) | Raised

  /** All that the order has filled. */
  function Filled(log: seq<Event>): real {
    if log == [] then 0.0
    else
      var last := log[|log| - 1];
      Filled(log[..|log| - 1]) + (if last.Fills? then last.amount else 0.0)
  }

  /** What the polls read, one after the other. */
  function Polls(log: seq<Event>): seq<Poll> {
    if log == [] then []
    else
      var before, last := log[..|log| - 1], log[|log| - 1];
      Polls(before) + (if last.Polled? then [Poll(Filled(before), last.lost, last.avg, last.quoted)] else [])
  }

  /** The parts filled after the last poll. */
  function FilledSincePoll(log: seq<Event>): real {
    if log == [] || log[|log| - 1].Polled? then 0.0
    else FilledSincePoll(log[..|log| - 1]) + log[|log| - 1].amount
  }

  function Sum(xs: seq<real>): real {
    if xs == [] then 0.0 else Sum(xs[..|xs| - 1]) + xs[|xs| - 1]
  }

  /** First positive value in order, else the default. */
  function FirstPositive(values: seq<Option<real>>, default: real): real {
    if values == [] then default
    else if values[0].Some? && values[0].value > 0.0 then values[0].value
    else FirstPositive(values[1..], default)
  }

  method FirstPositiveFloat(values: seq<Option<real>>, default: real) returns (r: real)
    ensures r == FirstPositive(values, default)
    ensures default > 0.0 ==> r > 0.0
  {
    r := default;
    for k := 0 to |values|
      invariant FirstPositive(values[k..], default) == FirstPositive(values, default)
    {
      assert values[k..][1..] == values[k + 1..];
      if values[k].None? {
        continue;
      }
      if values[k].value > 0.0 {
        r := values[k].value;
        return;
      }
    }
  }

  /** The poll says the order is filled, or raises: nothing is polled after it. */
  predicate Stops(o: Order, p: Poll) {
    p.lost || p.fill == o.qty
  }

  /** How many polls leave the order waiting. */
  function Waits(o: Order, polls: seq<Poll>): (k: nat)
    ensures k <= |polls|
    ensures forall j :: 0 <= j < k ==> !Stops(o, polls[j])
    ensures k < |polls| ==> Stops(o, polls[k])
  {
    if polls == [] || Stops(o, polls[0]) then 0 else 1 + Waits(o, polls[1..])
  }

  /** Executed quantity at the last of these polls; 0 before the first. */
  function LastSeen(polls: seq<Poll>): real {
    if polls == [] then 0.0 else polls[|polls| - 1].fill
  }

  /** Price of the limit leg, taken when the order is placed. */
  function LimitLeg(o: Order): real {
    FirstPositive([o.avg, o.quoted, Some(o.price)], o.price)
  }

  /** Price of an order found filled. */
  function MakerLeg(o: Order, p: Poll): real {
    FirstPositive([p.avg, p.quoted, Some(LimitLeg(o)), Some(o.price)], o.price)
  }

  function MarketLeg(o: Order, m: Market): real {
    FirstPositive([m.avg, m.quoted, Some(LimitLeg(o)), Some(o.price)], o.price)
  }

  function Remaining(o: Order, seen: real): real {
    MaxReal(0.0, o.qty - seen)
  }

  /** What the bot believes the market order filled. */
  function MarketBelieved(o: Order, seen: real, m: Market): real {
    if m.executed.Some? then m.executed.value else RoundQty(o.step, Remaining(o, seen))
  }

  /** The average price over both legs. */
  function Blend(seen: real, limitLeg: real, bought: real, marketLeg: real): real {
    if seen <= 0.0 then marketLeg
    else if seen + bought > 0.0 then (seen * limitLeg + bought * marketLeg) / (seen + bought)
    else limitLeg
  }

  /** What is left after the timeout is bought at market. */
  function Topped(o: Order, seen: real, m: Market): Entry {
    var kind := if seen == 0.0 then Taker else Hybrid;
    if Remaining(o, seen) <= 0.0 then Entered(seen, LimitLeg(o), kind)
    else if m.raises then Raised
    else
      var avg := Blend(seen, LimitLeg(o), MarketBelieved(o, seen, m), MarketLeg(o, m));
      Entered(seen + MarketBelieved(o, seen, m), if avg <= 0.0 then o.price else avg, kind)
  }

  /** What the call returns; it knows the exchange only through the polls and the replies. */
  function Placement(o: Order, x: Exchange): Entry {
    if !x.accepted then Raised
    else
      var polls := Polls(x.log);
      var k := Waits(o, polls);
      if k == |polls| then Topped(o, LastSeen(polls), x.market)
      else if polls[k].lost then Raised
      else Entered(polls[k].fill, MakerLeg(o, polls[k]), Maker)
  }

  lemma WaitsPast(o: Order, polls: seq<Poll>, k: nat)
    requires k <= |polls| && forall j :: 0 <= j < k ==> !Stops(o, polls[j])
    ensures Waits(o, polls) == k + Waits(o, polls[k..])
  {
    if k == 0 {
      assert polls[0..] == polls;
    } else {
      WaitsPast(o, polls[1..], k - 1);
      assert polls[1..][k - 1..] == polls[k..];
    }
  }

  /** After the timeout. */
  method TopUp(o: Order, seen: real, limitAvg: real, m: Market) returns (r: Entry)
    requires o.price > 0.0 && limitAvg == LimitLeg(o) > 0.0
    ensures r == Topped(o, seen, m)
  {
    var executed, avg := seen, limitAvg;
    var remaining := MaxReal(0.0, o.qty - executed);
    var kind := if executed == 0.0 then Taker else Hybrid;
    if remaining > 0.0 {
      if m.raises {
        return Raised;
      }
      var marketAvg := FirstPositiveFloat([m.avg, m.quoted, Some(avg), Some(o.price)], o.price);
      var marketQty := if m.executed.Some? then m.executed.value else RoundQty(o.step, remaining);
      avg := Blend(executed, avg, marketQty, marketAvg);
      executed := executed + marketQty;
    }
    if avg <= 0.0 {
      avg := FirstPositiveFloat([Some(o.price)], o.price);
      assert avg == o.price;
    }
    r := Entered(executed, avg, kind);
  }

  /** A poll that raises, or a market order that raises, leaves by exception.  A poll that finds
      the order filled ends it as maker.  Otherwise the limit order is cancelled, whether that
      works or not, and what the last poll left open is bought at market. */
  method PlaceLimitWithMarketFallback(o: Order, x: Exchange) returns (r: Entry)
    requires o.price > 0.0
    ensures r == Placement(o, x)
  {
    if !x.accepted {
      return Raised;
    }
    var executed := 0.0;
    var avg := FirstPositiveFloat([o.avg, o.quoted, Some(o.price)], o.price);
    var polls, k := Polls(x.log), 0;
    while k < |polls|
      invariant k <= |polls| && forall j :: 0 <= j < k ==> !Stops(o, polls[j])
      invariant executed == LastSeen(polls[..k])
    {
      WaitsPast(o, polls, k);
      var p := polls[k];
      if p.lost {
        return Raised;
      }
      executed := p.fill;
      if executed == o.qty {
        avg := FirstPositiveFloat([p.avg, p.quoted, Some(avg), Some(o.price)], o.price);
        return Entered(executed, avg, Maker);
      }
      k := k + 1;
    }
    WaitsPast(o, polls, k);
    assert polls[..k] == polls;
    r := TopUp(o, executed, avg, x.market);
  }

  // ---- What the result means at the exchange ----------------------------------------------

  /** What the bot believes to have seen. */
  function Seen(x: Exchange): real {
    LastSeen(Polls(x.log))
  }

  ghost predicate NoneNegative(log: seq<Event>) {
    forall e :: e in log && e.Fills? ==> e.amount >= 0.0
  }

  /** The exchange keeps its rules: an order's fills never shrink and never pass its quantity, and a
      market order fills at most what it is asked for.  What a reply says about it is left open. */
  ghost predicate Honest(o: Order, x: Exchange) {
    && NoneNegative(x.log) && (forall i :: 0 <= i < |x.afterwards| ==> x.afterwards[i] >= 0.0)
    && Filled(x.log) + Sum(x.afterwards) <= o.qty
    && 0.0 <= x.market.fill <= RoundQty(o.step, Remaining(o, Seen(x)))
  }

  /** The reply to the market order states its fill, or says nothing about an order that filled whole. */
  predicate Truthful(o: Order, x: Exchange) {
    MarketBelieved(o, Seen(x), x.market) == x.market.fill
  }

  /** Every poll reads some of what has been filled, and what the last one did not read was filled
      after it. */
  lemma {:induction false} PollsReadFills(log: seq<Event>)
    requires NoneNegative(log)
    ensures forall p :: p in Polls(log) ==> 0.0 <= p.fill <= Filled(log)
    ensures Filled(log) == LastSeen(Polls(log)) + FilledSincePoll(log)
    ensures 0.0 <= FilledSincePoll(log)
  {
    if log != [] {
      var before, last := log[..|log| - 1], log[|log| - 1];
      assert last in log;
      PollsReadFills(before);
    }
  }

  lemma {:induction false} SumNonnegative(xs: seq<real>)
    requires forall i :: 0 <= i < |xs| ==> xs[i] >= 0.0
    ensures Sum(xs) >= 0.0
  {
    if xs != [] {
      SumNonnegative(xs[..|xs| - 1]);
    }
  }

  lemma HonestFills(o: Order, x: Exchange)
    requires Honest(o, x)
    ensures 0.0 <= Seen(x) <= Seen(x) + FilledSincePoll(x.log) == Filled(x.log) <= o.qty
    ensures 0.0 <= Sum(x.afterwards) <= o.qty - Filled(x.log)
    ensures forall p :: p in Polls(x.log) ==> 0.0 <= p.fill <= Filled(x.log)
  {
    PollsReadFills(x.log);
    SumNonnegative(x.afterwards);
    var polls := Polls(x.log);
    if polls != [] {
      assert polls[|polls| - 1] in polls;
    }
  }

  /** The polls ran out, so the order was cancelled. */
  predicate TimedOut(o: Order, x: Exchange) {
    x.accepted && Waits(o, Polls(x.log)) == |Polls(x.log)|
  }

  /** What the limit order fills in the end: all that is filled when it is cancelled; and if no
      cancel is sent or the cancel fails, whatever it goes on to fill. */
  function LimitFilled(o: Order, x: Exchange): real {
    if TimedOut(o, x) && x.cancelWorks then Filled(x.log) else Filled(x.log) + Sum(x.afterwards)
  }

  predicate BuysAtMarket(o: Order, x: Exchange) {
    TimedOut(o, x) && Remaining(o, Seen(x)) > 0.0
  }

  /** The position the call has opened once everything has settled. */
  function Position(o: Order, x: Exchange): real {
    LimitFilled(o, x) + (if BuysAtMarket(o, x) then x.market.fill else 0.0)
  }

  /** The parts the limit order fills behind the bot's back: between the last poll and the cancel,
      and after a cancel that failed. */
  function FilledUnseen(x: Exchange): real {
    FilledSincePoll(x.log) + (if x.cancelWorks then 0.0 else Sum(x.afterwards))
  }

  /** What a reply leaves out of the market order's fill. */
  function Unstated(o: Order, x: Exchange): real {
    if BuysAtMarket(o, x) then x.market.fill - MarketBelieved(o, Seen(x), x.market) else 0.0
  }

  /** Whatever the replies say, the position differs from the returned quantity by exactly the parts
      the limit order fills after the last poll (until the cancel, or for good when the cancel
      fails) and by what the reply leaves out of the market order's fill.  Nothing differs when a
      poll found the order filled. */
  lemma GapFillsAreMissed(o: Order, x: Exchange)
    requires Honest(o, x) && Placement(o, x).Entered?
    ensures var r, position := Placement(o, x), Position(o, x);
      && (r.kind == Maker ==> r.qty == position == o.qty)
      && (r.kind != Maker ==> position - r.qty == FilledUnseen(x) + Unstated(o, x) && 0.0 <= FilledUnseen(x))
      && (Truthful(o, x) ==> r.qty <= position)
      && (Truthful(o, x) ==> (r.qty == position <==> r.kind == Maker || FilledUnseen(x) == 0.0))
  {
    HonestFills(o, x);
    var polls := Polls(x.log);
    var k := Waits(o, polls);
    if k < |polls| {
      assert polls[k] in polls;
    }
  }

  /** A reply that states no fill for an order that filled hides the whole market leg, for every
      order: nothing is returned and everything asked for is open. */
  lemma ZeroReplyHidesMarketLeg(o: Order)
    requires o.qty > 0.0 && o.step > 0.0
    ensures var bought := RoundQty(o.step, o.qty);
      var x := Exchange(true, [], true, [], Market(bought, false, Some(0.0), None, None));
      && Honest(o, x)
      && Placement(o, x).Entered? && Placement(o, x).qty == 0.0 && Position(o, x) == bought
  {
    RoundQtyIsLargestMultiple(o.step, o.qty, 0);
  }

  /** The call reports no more than was asked for, and the position is at most the requested
      quantity and the fills it misses; */
  lemma ReportsAtMostRequested(o: Order, x: Exchange)
    requires Honest(o, x) && Placement(o, x).Entered?
    requires MarketBelieved(o, Seen(x), x.market) <= RoundQty(o.step, Remaining(o, Seen(x)))
    ensures Placement(o, x).qty <= o.qty
    ensures Placement(o, x).kind != Maker ==> Position(o, x) <= o.qty + FilledUnseen(x) <= 2.0 * o.qty
  {
    if TimedOut(o, x) {
      HonestFills(o, x);
      var remaining := Remaining(o, Seen(x));
      if o.step > 0.0 {
        RoundQtyIsLargestMultiple(o.step, remaining, 0);
      }
    }
  }

  lemma OneFill(qty: real)
    ensures Polls([Fills(qty)]) == [] && Filled([Fills(qty)]) == qty
  {
    var log := [Fills(qty)];
    assert log[..0] == [] && log[|log| - 1] == Fills(qty);
    assert Polls(log[..0]) == [] && Filled(log[..0]) == 0.0;
  }

  /** twice the quantity is reached: an order that fills whole between the last poll (or without
      one) and the cancel is bought a second time at market, and once is reported. */
  lemma WholeOrderBoughtTwice(o: Order, steps: nat)
    requires o.step > 0.0 && o.qty == Multiple(steps, o.step) > 0.0
    ensures var x := Exchange(true, [Fills(o.qty)], true, [], Market(o.qty, false, Some(o.qty), None, None));
      && Honest(o, x)
      && Placement(o, x).Entered? && Placement(o, x).qty == o.qty
      && Position(o, x) == 2.0 * o.qty
  {
    OneFill(o.qty);
    assert Waits(o, []) == 0;
    RoundQtyKeepsMultiples(o.step, steps);
  }

  /** In whole steps, with a market order that fills, exactly the requested quantity is reported,
      and the position is too large by what was missed. */
  lemma ReportsRequestedInWholeSteps(o: Order, x: Exchange, qty: nat, seen: nat)
    requires Honest(o, x) && Truthful(o, x) && Placement(o, x).Entered? && o.step > 0.0
    requires o.qty == Multiple(qty, o.step) && Seen(x) == Multiple(seen, o.step)
    requires BuysAtMarket(o, x) ==> x.market.fill == RoundQty(o.step, Remaining(o, Seen(x)))
    ensures Placement(o, x).qty == o.qty
    ensures Placement(o, x).kind != Maker ==> Position(o, x) == o.qty + FilledUnseen(x)
  {
    if TimedOut(o, x) {
      HonestFills(o, x);
      MultipleOrder(seen, qty, o.step);
      assert Multiple(qty, o.step) - Multiple(seen, o.step) == Multiple(qty - seen, o.step);
      RoundQtyKeepsMultiples(o.step, qty - seen);
    }
  }

  // ---- Exceptions -------------------------------------------------------------------------

  /** An exception reports nothing; what polls had seen is open all the same, and up to twice the
      requested quantity may be. */
  lemma RaisedPositionBounds(o: Order, x: Exchange)
    requires Honest(o, x) && Placement(o, x).Raised?
    ensures Seen(x) <= Position(o, x) <= 2.0 * o.qty
    ensures !BuysAtMarket(o, x) ==> Position(o, x) == Filled(x.log) + Sum(x.afterwards)
    ensures BuysAtMarket(o, x) ==> x.market.raises
  {
    HonestFills(o, x);
    var remaining := Remaining(o, Seen(x));
    if o.step > 0.0 && remaining >= 0.0 {
      RoundQtyIsLargestMultiple(o.step, remaining, 0);
    }
  }

  /** What the exchange does while nobody watches: nothing before, everything afterwards. */
  function Unwatched(o: Order, accepted: bool, log: seq<Event>, marketRaises: bool): Exchange {
    Exchange(accepted, log, false, [o.qty], Market(0.0, marketRaises, None, None, None))
  }

  lemma UnwatchedIsHonest(o: Order, accepted: bool, log: seq<Event>, marketRaises: bool)
    requires o.qty > 0.0 && (log == [] || log == [Polled(true, None, None)])
    ensures var x := Unwatched(o, accepted, log, marketRaises);
      Honest(o, x) && Filled(log) == 0.0 && Sum(x.afterwards) == o.qty
  {
    assert [o.qty][..0] == [];
    if log != [] {
      assert log[..0] == [];
    }
    PollsReadFills(log);
    if o.step > 0.0 {
      RoundQtyIsLargestMultiple(o.step, Remaining(o, LastSeen(Polls(log))), 0);
    }
  }

  /** Each of the three ways to raise can leave the whole quantity open: the reply to the placement
      is lost, */
  lemma LostPlacementLeavesWholePosition(o: Order)
    requires o.qty > 0.0
    ensures var x := Unwatched(o, false, [], false);
      Honest(o, x) && Placement(o, x) == Raised && Position(o, x) == o.qty
  {
    UnwatchedIsHonest(o, false, [], false);
  }

  /** a poll raises, */
  lemma LostPollLeavesWholePosition(o: Order)
    requires o.qty > 0.0
    ensures var x := Unwatched(o, true, [Polled(true, None, None)], false);
      Honest(o, x) && Placement(o, x) == Raised && Position(o, x) == o.qty
  {
    var log := [Polled(true, None, None)];
    UnwatchedIsHonest(o, true, log, false);
    assert log[..0] == [] && Polls(log) == [Poll(0.0, true, None, None)];
  }

  /** or the market order raises after the cancel failed. */
  lemma LostMarketOrderLeavesWholePosition(o: Order)
    requires o.qty > 0.0
    ensures var x := Unwatched(o, true, [], true);
      Honest(o, x) && Placement(o, x) == Raised && Position(o, x) == o.qty
  {
    UnwatchedIsHonest(o, true, [], true);
  }

  /** So an exception is safe to take for "nothing was bought" exactly for an order of nothing. */
  lemma RaisedIsSafeIff(o: Order)
    requires o.qty >= 0.0
    ensures (forall x: Exchange :: Honest(o, x) && Placement(o, x).Raised? ==> Position(o, x) == 0.0)
            <==> o.qty == 0.0
  {
    if o.qty == 0.0 {
      forall x: Exchange | Honest(o, x) && Placement(o, x).Raised? ensures Position(o, x) == 0.0 {
        HonestFills(o, x);
        RaisedPositionBounds(o, x);
      }
    } else {
      LostPollLeavesWholePosition(o);
      var x := Unwatched(o, true, [Polled(true, None, None)], false);
      assert Honest(o, x) && Placement(o, x).Raised?;
    }
  }

  // ---- Prices -----------------------------------------------------------------------------

  lemma {:induction false} FirstPositiveIsPositive(values: seq<Option<real>>, default: real)
    requires default > 0.0
    ensures FirstPositive(values, default) > 0.0
  {
    if values != [] {
      FirstPositiveIsPositive(values[1..], default);
    }
  }

  lemma PositivePrices(o: Order, p: Poll, m: Market)
    requires o.price > 0.0
    ensures LimitLeg(o) > 0.0 && MarketLeg(o, m) > 0.0 && MakerLeg(o, p) > 0.0
  {
    assert [o.avg, o.quoted, Some(o.price)][1..][1..] == [Some(o.price)];
    FirstPositiveIsPositive([o.avg, o.quoted, Some(o.price)], o.price);
    FirstPositiveIsPositive([m.avg, m.quoted, Some(LimitLeg(o)), Some(o.price)], o.price);
    FirstPositiveIsPositive([p.avg, p.quoted, Some(LimitLeg(o)), Some(o.price)], o.price);
  }

  predicate PricedBetween(r: Entry, seen: real, limitLeg: real, bought: real, marketLeg: real) {
    && r.Entered?
    && MinReal(limitLeg, marketLeg) <= r.avg <= MaxReal(limitLeg, marketLeg)
    && r.avg * r.qty == seen * limitLeg + bought * marketLeg
    && (seen == 0.0 ==> r.avg == marketLeg)
  }

  lemma WeightedBounds(a: real, x: real, b: real, y: real, lo: real, hi: real)
    requires a >= 0.0 && b >= 0.0 && lo <= x <= hi && lo <= y <= hi
    ensures lo * (a + b) <= a * x + b * y <= hi * (a + b)
  {
    assert 0.0 <= a * (x - lo) && 0.0 <= b * (y - lo);
    assert 0.0 <= a * (hi - x) && 0.0 <= b * (hi - y);
  }

  lemma BlendBetween(seen: real, limitLeg: real, bought: real, marketLeg: real)
    requires seen >= 0.0 && bought >= 0.0
    ensures var avg := Blend(seen, limitLeg, bought, marketLeg);
      && MinReal(limitLeg, marketLeg) <= avg <= MaxReal(limitLeg, marketLeg)
      && avg * (seen + bought) == seen * limitLeg + bought * marketLeg
  {
    if seen > 0.0 {
      var total := seen + bought;
      var avg := Blend(seen, limitLeg, bought, marketLeg);
      assert avg * total == seen * limitLeg + bought * marketLeg;
      var lo, hi := MinReal(limitLeg, marketLeg), MaxReal(limitLeg, marketLeg);
      WeightedBounds(seen, limitLeg, bought, marketLeg, lo, hi);
      ScaleLess(lo, avg, total);
      ScaleLess(avg, hi, total);
    }
  }

  lemma ToppedBetween(o: Order, seen: real, bought: real, m: Market)
    requires o.price > 0.0 && seen >= 0.0 && bought >= 0.0 && MarketBelieved(o, seen, m) == bought
    requires Remaining(o, seen) > 0.0 && !m.raises
    ensures PricedBetween(Topped(o, seen, m), seen, LimitLeg(o), bought, MarketLeg(o, m))
  {
    PositivePrices(o, Poll(0.0, false, None, None), m);
    var limitLeg, marketLeg := LimitLeg(o), MarketLeg(o, m);
    BlendBetween(seen, limitLeg, bought, marketLeg);
    assert Topped(o, seen, m) == Entered(seen + bought, Blend(seen, limitLeg, bought, marketLeg),
                                         if seen == 0.0 then Taker else Hybrid);
  }

  /** The reported average times the reported quantity is what both legs cost, and the average
      lies between the prices of the two legs; with no limit fill it is the market leg's. */
  lemma AverageBetweenLegs(o: Order, x: Exchange)
    requires Honest(o, x) && o.price > 0.0 && BuysAtMarket(o, x) && Placement(o, x).Entered?
    requires MarketBelieved(o, Seen(x), x.market) >= 0.0
    ensures PricedBetween(Placement(o, x), Seen(x), LimitLeg(o), MarketBelieved(o, Seen(x), x.market),
                          MarketLeg(o, x.market))
  {
    HonestFills(o, x);
    var seen := Seen(x);
    assert Placement(o, x) == Topped(o, seen, x.market);
    ToppedBetween(o, seen, MarketBelieved(o, seen, x.market), x.market);
  }

  // ---- Prices and outcomes in plain terms -------------------------------------------------

  /** The value, when it is there and positive, else the other one. */
  function Or(value: Option<real>, otherwise: real): real {
    if value.Some? && value.value > 0.0 then value.value else otherwise
  }

  /** The first positive reading wins, and only a list without one falls back to the default. */
  lemma {:induction false} FirstPositiveIsFirst(values: seq<Option<real>>, default: real, k: nat)
    requires k <= |values| && forall j :: 0 <= j < k ==> values[j].None? || values[j].value <= 0.0
    requires k < |values| ==> values[k].Some? && values[k].value > 0.0
    ensures FirstPositive(values, default) == if k < |values| then values[k].value else default
  {
    if k > 0 {
      FirstPositiveIsFirst(values[1..], default, k - 1);
    }
  }

  lemma FirstOfThree(a: Option<real>, b: Option<real>, c: real, rest: seq<Option<real>>, default: real)
    requires c > 0.0
    ensures FirstPositive([a, b, Some(c)] + rest, default) == Or(a, Or(b, c))
  {
    var values := [a, b, Some(c)] + rest;
    var k := if a.Some? && a.value > 0.0 then 0 else if b.Some? && b.value > 0.0 then 1 else 2;
    FirstPositiveIsFirst(values, default, k);
  }

  /** The three prices: the limit leg is the placement reply's average, else its price, else the asked
      price; a maker takes the deciding poll's average, else its price, else the limit leg's; the
      market leg the market reply's average, else its price, else the limit leg's. */
  lemma LegPrices(o: Order, p: Poll, m: Market)
    requires o.price > 0.0
    ensures LimitLeg(o) == Or(o.avg, Or(o.quoted, o.price)) > 0.0
    ensures MakerLeg(o, p) == Or(p.avg, Or(p.quoted, Or(o.avg, Or(o.quoted, o.price))))
    ensures MarketLeg(o, m) == Or(m.avg, Or(m.quoted, Or(o.avg, Or(o.quoted, o.price))))
  {
    FirstOfThree(o.avg, o.quoted, o.price, [], o.price);
    assert [o.avg, o.quoted, Some(o.price)] + [] == [o.avg, o.quoted, Some(o.price)];
    var limit := LimitLeg(o);
    FirstOfThree(p.avg, p.quoted, limit, [Some(o.price)], o.price);
    FirstOfThree(m.avg, m.quoted, limit, [Some(o.price)], o.price);
    assert [p.avg, p.quoted, Some(limit)] + [Some(o.price)] == [p.avg, p.quoted, Some(limit), Some(o.price)];
    assert [m.avg, m.quoted, Some(limit)] + [Some(o.price)] == [m.avg, m.quoted, Some(limit), Some(o.price)];
  }

  lemma ToppedQty(o: Order, x: Exchange)
    requires Honest(o, x) && BuysAtMarket(o, x) && Placement(o, x).Entered?
    ensures var r := Placement(o, x);
      && r.qty == Seen(x) + MarketBelieved(o, Seen(x), x.market)
      && r.kind == (if Seen(x) == 0.0 then Taker else Hybrid)
  {
  }

  /** The average of an entry bought at market, from the replies: the market's price when the limit
      order filled nothing, and otherwise the price at which both legs cost what they cost. */
  lemma MarketEntryPrice(o: Order, x: Exchange)
    requires Honest(o, x) && o.price > 0.0 && BuysAtMarket(o, x) && Placement(o, x).Entered?
    requires MarketBelieved(o, Seen(x), x.market) >= 0.0
    ensures var limit := Or(o.avg, Or(o.quoted, o.price));
      var market := Or(x.market.avg, Or(x.market.quoted, limit));
      var r := Placement(o, x);
      && (Seen(x) == 0.0 ==> r.avg == market)
      && r.avg * r.qty == Seen(x) * limit + MarketBelieved(o, Seen(x), x.market) * market
      && MinReal(limit, market) <= r.avg <= MaxReal(limit, market)
  {
    LegPrices(o, Poll(0.0, false, None, None), x.market);
    AverageBetweenLegs(o, x);
    assert PricedBetween(Placement(o, x), Seen(x), Or(o.avg, Or(o.quoted, o.price)),
                         MarketBelieved(o, Seen(x), x.market),
                         Or(x.market.avg, Or(x.market.quoted, Or(o.avg, Or(o.quoted, o.price)))));
  }

  /** None of the first `k` polls raises or sees the whole quantity. */
  predicate Unfilled(o: Order, polls: seq<Poll>, k: nat)
    requires k <= |polls|
  {
    forall j :: 0 <= j < k ==> !polls[j].lost && polls[j].fill != o.qty
  }

  /** The call stops polling exactly behind the longest such stretch. */
  lemma WaitsWhileUnfilled(o: Order, polls: seq<Poll>, k: nat)
    requires k <= |polls|
    ensures Unfilled(o, polls, k) <==> k <= Waits(o, polls)
  {
    var w := Waits(o, polls);
    if Unfilled(o, polls, k) {
      forall j | 0 <= j < k ensures !Stops(o, polls[j]) {
        assert !polls[j].lost;
      }
      WaitsPast(o, polls, k);
    } else {
      var j :| 0 <= j < k && (polls[j].lost || polls[j].fill == o.qty);
      assert Stops(o, polls[j]);
    }
  }

  /** A poll that answers and sees the whole quantity, with none before it that raises or sees it,
      makes the entry: maker, the whole quantity, at that poll's price. */
  lemma FilledPollMakesEntry(o: Order, x: Exchange, k: nat)
    requires o.price > 0.0 && x.accepted && k < |Polls(x.log)| && Unfilled(o, Polls(x.log), k)
    requires !Polls(x.log)[k].lost && Polls(x.log)[k].fill == o.qty
    ensures var p := Polls(x.log)[k];
      Placement(o, x) == Entered(o.qty, Or(p.avg, Or(p.quoted, Or(o.avg, Or(o.quoted, o.price)))), Maker)
  {
    var polls := Polls(x.log);
    WaitsWhileUnfilled(o, polls, k);
    WaitsWhileUnfilled(o, polls, k + 1);
    LegPrices(o, polls[k], x.market);
  }

  /** Without such a poll, and with none that raises, the order times out, and what the last poll left
      open is asked for at market. */
  lemma TimedOutIff(o: Order, x: Exchange)
    requires x.accepted && o.price > 0.0
    ensures TimedOut(o, x) <==> Unfilled(o, Polls(x.log), |Polls(x.log)|)
    ensures BuysAtMarket(o, x) <==> TimedOut(o, x) && Seen(x) < o.qty
    ensures TimedOut(o, x) && Seen(x) >= o.qty ==>
      Placement(o, x) == Entered(Seen(x), Or(o.avg, Or(o.quoted, o.price)), if Seen(x) == 0.0 then Taker else Hybrid)
  {
    WaitsWhileUnfilled(o, Polls(x.log), |Polls(x.log)|);
    LegPrices(o, Poll(0.0, false, None, None), x.market);
  }

  /** The call raises exactly when the placement does, a poll raises before one sees the whole
      quantity, or the market order it needs raises. */
  lemma RaisesIff(o: Order, x: Exchange)
    ensures Placement(o, x).Raised? <==>
      || !x.accepted
      || (exists k :: 0 <= k < |Polls(x.log)| && Polls(x.log)[k].lost && Unfilled(o, Polls(x.log), k))
      || (BuysAtMarket(o, x) && x.market.raises)
  {
    var polls := Polls(x.log);
    var w := Waits(o, polls);
    WaitsWhileUnfilled(o, polls, w);
    if k: nat :| k < |polls| && polls[k].lost && Unfilled(o, polls, k) {
      WaitsWhileUnfilled(o, polls, k);
      WaitsWhileUnfilled(o, polls, k + 1);
    }
  }
}
