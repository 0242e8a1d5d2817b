/**
 * The simulated venue in place: one object whose resting list, shadow positions, cash and draw
 * counter are updated by submit, cancel and observe, emitting into the engine's event sink.
 * Every method is proved to perform exactly the transition module Exchange specifies.
 */
module SimulatedExchange {
  import opened Prelude
  import opened Trading
  import opened Exchange

  class EventSink {
    var events: seq<AccountEvent>

    constructor ()
      ensures events == []
    {
      events := [];
    }

    method Emit(e: AccountEvent)
      modifies this
      ensures events == old(events) + [e]
    {
      events := events + [e];
    }
  }

  class Venue {
    const cfg: Config
    var resting: seq<Resting>
    var shadows: map<nat, Shadow>
    var cash: Option<int>
    var drawn: nat

    function State(): Exchange.Venue
      reads this
    {
      Exchange.Venue(resting, shadows, cash, drawn)
    }

    constructor (cfg: Config, startingCash: Option<int>)
      ensures this.cfg == cfg && State() == Opened(startingCash)
    {
      this.cfg := cfg;
      resting, shadows, cash, drawn := [], map[], startingCash, 0;
    }

    method SettleCash(side: Side, price: int, qty: int, costs: seq<int>)
      modifies this`cash
      ensures cash == SettledCash(old(cash), side, price, qty, costs)
    {
      if cash.Some? {
        var balance := if side.Buy? then cash.value - price * qty else cash.value + price * qty;
        var start := balance;
        for i := 0 to |costs|
          invariant balance == start - Total(costs[..i])
          invariant cash == old(cash)
        {
          PrefixStep(costs, i);
          balance := balance - costs[i];
        }
        assert costs[..|costs|] == costs;
        cash := Some(balance);
      }
    }

    method Submit(id: nat, order: Order, now: int, sink: EventSink)
      modifies this, sink
      ensures (State(), sink.events) == (Submitted(cfg, old(State()), id, order, now).0,
                                         old(sink.events) + Submitted(cfg, old(State()), id, order, now).1)
    {
      hide Rejection;
      var rejection := Rejection(cfg, State(), order);
      if rejection.Some? {
        sink.Emit(OrderRejected(id, rejection.value, now));
      } else {
        sink.Emit(OrderAccepted(id, now));
        resting := resting + [Resting(id, order, cfg.latencyBars, false, None, 0)];
      }
    }

    method Cancel(id: nat, now: int, sink: EventSink)
      modifies this, sink
      ensures (State(), sink.events) == (Canceled(old(State()), id, now).0, old(sink.events) + Canceled(old(State()), id, now).1)
    {
      var i := 0;
      while i < |resting| && resting[i].id != id
        invariant 0 <= i <= |resting|
        invariant forall j :: 0 <= j < i ==> resting[j].id != id
      {
        i := i + 1;
      }
      assert i == IndexOf(resting, id);
      if i < |resting| {
        resting := resting[..i] + resting[i + 1..];
        sink.Emit(OrderCanceled(id, Requested, now));
      } else {
        sink.Emit(OrderCancelRejected(id, now));
      }
    }

    /** One order of the pass: match it against the bar, put it back, end it, or stage its fill. */
    method MatchOne(bar: Bar, now: int, pending: Resting, net: int, cap: Option<int>, staged: seq<Staged>, claims: seq<Claim>,
                    sink: EventSink, ghost s: Scan)
      returns (net': int, cap': Option<int>, staged': seq<Staged>, claims': seq<Claim>)
      requires s.net == net && s.cap == cap && s.claims == claims && s.drawn == drawn
      modifies this`resting, this`drawn, sink
      ensures var d := Decide(cfg, bar, now, s, pending);
              && resting == old(resting) + Listed(d.kept)
              && sink.events == old(sink.events) + d.Events(pending.id, now)
              && staged' == staged + Listed(d.staged)
              && net' == NextNet(net, pending.order.side, d) && cap' == NextCap(cap, d)
              && claims' == NextClaims(claims, pending.order.group, pending.id, d)
              && drawn == (if d.drew then old(drawn) + 1 else old(drawn))
    {
      hide Evaluate, DecideFill, TouchIsUncertain, DrawFills, ClaimedByOther, GroupClaimed;
      EventsAppend(sink.events, Decide(cfg, bar, now, s, pending), pending.id, now);
      assert resting + [] == resting && staged + [] == staged;
      net', cap', staged', claims' := net, cap, staged, claims;
      var r := pending;
      if r.order.instrument != bar.instrument {
        resting := resting + [r];
        return;
      }
      if r.activateIn > 0 {
        r := r.(activateIn := r.activateIn - 1);
        resting := resting + [r];
        return;
      }
      var wasArmed := r.armed;
      var (evaluated, outcome) := Evaluate(r, bar);
      EvaluateKeeps(r, bar);
      r := evaluated;
      if !wasArmed && r.armed {
        sink.Emit(OrderTriggered(r.id, now));
      }
      match outcome {
        case CancelFor(reason) =>
          sink.Emit(OrderCanceled(r.id, reason, now));
        case Rest =>
          if r.order.tif == Gtc || (!r.armed && r.order.kind.Conditional()) {
            resting := resting + [r];
          } else {
            sink.Emit(OrderExpired(r.id, now));
          }
        case FillAt(base) =>
          var uncertain := TouchIsUncertain(cfg, r.order, bar);
          var draws := drawn;
          if uncertain {
            drawn := drawn + 1;
          }
          if uncertain && !DrawFills(cfg, draws) {
            if r.order.tif == Gtc {
              resting := resting + [r];
            } else {
              sink.Emit(OrderExpired(r.id, now));
            }
            return;
          }
          if ClaimedByOther(claims, r.order, r.id) {
            sink.Emit(OrderCanceled(r.id, OcoTriggered, now));
            return;
          }
          if !r.armed && (r.order.kind.Stop? || r.order.kind.MarketIfTouched? || r.order.kind.TrailingStop?) {
            r := r.(armed := true);
            sink.Emit(OrderTriggered(r.id, now));
          }
          net', cap', staged', claims' := StageFill(bar, now, r, base, net, cap, staged, claims, sink,
                                                    s, !wasArmed && r.armed, uncertain);
      }
    }

    /** Size the fill of an order that may take liquidity, stage it, and rest or expire the remainder. */
    method StageFill(bar: Bar, now: int, order: Resting, base: int, net: int, cap: Option<int>, staged: seq<Staged>, claims: seq<Claim>,
                     sink: EventSink, ghost s: Scan, ghost triggered: bool, ghost drew: bool)
      returns (net': int, cap': Option<int>, staged': seq<Staged>, claims': seq<Claim>)
      requires s.net == net && s.cap == cap
      modifies this`resting, sink
      ensures var d := DecideFill(cfg, bar, now, s, order, base, triggered, drew);
              && d.triggered == triggered && d.drew == drew
              && resting == old(resting) + Listed(d.kept)
              && sink.events == old(sink.events) + Listed(d.ended)
              && staged' == staged + Listed(d.staged)
              && net' == NextNet(net, order.order.side, d) && cap' == NextCap(cap, d)
              && claims' == NextClaims(claims, order.order.group, order.id, d)
    {
      hide FillPrice, GroupClaimed, Reducible;
      assert resting + [] == resting && sink.events + [] == sink.events && staged + [] == staged;
      net', cap', staged', claims' := net, cap, staged, claims;
      var r := order;
      var remaining := r.order.qty - r.filled;
      var want := if cap.Some? then Min(remaining, Max(cap.value, 0)) else remaining;
      var exhausted := false;
      if r.order.reduceOnly {
        var reducible := Reducible(net, r.order.side);
        if want >= reducible {
          want := reducible;
          exhausted := true;
        }
      }
      if r.order.tif == Fok && want < remaining {
        sink.Emit(OrderExpired(r.id, now));
        return;
      }
      if want <= 0 {
        if r.order.reduceOnly && exhausted {
          sink.Emit(OrderCanceled(r.id, VenueCanceled, now));
        } else if r.order.tif == Gtc {
          resting := resting + [r];
        } else {
          sink.Emit(OrderExpired(r.id, now));
        }
        return;
      }
      var price := if r.order.kind.Passive() then base else FillPrice(cfg, base, r.order.side, want, bar.volume);
      var complete := r.filled + want >= r.order.qty || exhausted;
      staged' := staged + [Staged(r.id, r.order.instrument, r.order.side, price, want, complete)];
      r := r.(filled := r.filled + want);
      net' := net + r.order.side.Sign() * want;
      if cap.Some? {
        cap' := Some(cap.value - want);
      }
      if r.order.group.Some? && !GroupClaimed(claims, r.order.group.value) {
        claims' := claims + [Claim(r.order.group.value, r.id, r.filled, complete)];
      }
      if !complete {
        if r.order.tif == Gtc {
          resting := resting + [r];
        } else {
          sink.Emit(OrderExpired(r.id, now));
        }
      }
    }

    /** The pass over all resting orders, which are taken out and put back one by one. */
    method MatchResting(bar: Bar, now: int, sink: EventSink) returns (staged: seq<Staged>, claims: seq<Claim>)
      modifies this`resting, this`drawn, sink
      ensures var s := ScanBar(cfg, old(State()), bar, now);
              State() == old(State()).(resting := s.kept, drawn := s.drawn) && sink.events == old(sink.events) + s.events
              && staged == s.staged && claims == s.claims
    {
      hide Decide, NextNet, NextCap, NextClaims, ScanOrders;
      ScanBegins(cfg, bar, now, ScanStart(cfg, State(), bar));
      ghost var start := ScanStart(cfg, State(), bar);
      ghost var s, before := start, sink.events;
      var net := ShadowOf(shadows, bar.instrument).net;
      var cap := VolumeCap(cfg, bar);
      var pending := resting;
      resting, staged, claims := [], [], [];
      for i := 0 to |pending|
        invariant s == ScanOrders(cfg, bar, now, pending[..i], start)
        invariant s == Scan(resting, s.events, staged, claims, net, cap, drawn)
        invariant sink.events == before + s.events
        invariant shadows == old(shadows) && cash == old(cash)
      {
        ScanContinues(cfg, bar, now, pending, start, i);
        net, cap, staged, claims := MatchOne(bar, now, pending[i], net, cap, staged, claims, sink, s);
        s := Advance(s, pending[i], Decide(cfg, bar, now, s, pending[i]), now);
      }
      assert pending[..|pending|] == pending;
    }

    method EmitFills(staged: seq<Staged>, now: int, sink: EventSink)
      modifies this, sink
      ensures var (w, events) := SettleFills(cfg, old(State()), staged, now);
              State() == w && sink.events == old(sink.events) + events
    {
      hide ApplyShadow, FeeCosts, SettledCash;
      ghost var start, before := State(), sink.events;
      for i := 0 to |staged|
        invariant var (w, events) := SettleFills(cfg, start, staged[..i], now);
                  State() == w && sink.events == before + events
      {
        PrefixStep(staged, i);
        var f := staged[i];
        var costs := FeeCosts(cfg, f.instrument, f.price, f.qty);
        shadows := shadows[f.instrument := ApplyShadow(ShadowOf(shadows, f.instrument), f.side, f.price, f.qty)];
        SettleCash(f.side, f.price, f.qty, costs);
        sink.Emit(Fill(f.id, f.instrument, f.side, f.price, f.qty, costs, f.complete, now));
      }
      assert staged[..|staged|] == staged;
    }

    method ReduceOrCancelSiblings(c: Claim, now: int, sink: EventSink)
      modifies this`resting, sink
      ensures var (kept, events) := ResolveClaim(old(resting), c, now);
              resting == kept && sink.events == old(sink.events) + events
    {
      var kept: seq<Resting> := [];
      ghost var before := sink.events;
      for i := 0 to |resting|
        invariant resting == old(resting)
        invariant var (k, events) := ResolveClaim(resting[..i], c, now); kept == k && sink.events == before + events
      {
        PrefixStep(resting, i);
        var r := resting[i];
        if r.order.group == Some(c.group) && r.id != c.keeper {
          if c.complete || r.order.qty - c.filled <= 0 {
            sink.Emit(OrderCanceled(r.id, OcoTriggered, now));
          } else {
            r := r.(filled := Max(r.filled, c.filled));
            kept := kept + [r];
          }
        } else {
          kept := kept + [r];
        }
      }
      assert resting[..|resting|] == resting;
      resting := kept;
    }

    method FundPosition(bar: Bar, now: int, sink: EventSink)
      modifies this`shadows, this`cash, sink
      ensures var (w, events) := AccrueFunding(cfg, old(State()), bar, now);
              State() == w && sink.events == old(sink.events) + events
    {
      hide FundingRateAt, MulRate;
      var i: nat := bar.instrument;
      var interval := if i in cfg.intervals then cfg.intervals[i] else cfg.fundingInterval;
      if interval == 0 {
        return;
      }
      if i >= |cfg.specs| || !cfg.specs[i].perpetual {
        return;
      }
      var shadow := ShadowOf(shadows, i);
      shadow := shadow.(bars := shadow.bars + 1);
      shadows := shadows[i := shadow];
      if shadow.bars < interval {
        return;
      }
      shadow := shadow.(bars := 0);
      assert shadows[i := shadow] == old(shadows)[i := shadow];
      shadows := shadows[i := shadow];
      if shadow.net == 0 {
        return;
      }
      var rate := if i in cfg.schedules then FundingRateAt(cfg.schedules[i], now) else cfg.fundingBps * 10_000;
      var amount := MulRate(bar.close * shadow.net, rate);
      SettleCash(Buy, 0, 0, [amount]);
      sink.Emit(FundingSettlement(i, amount, rate, now));
    }

    method Liquidate(bar: Bar, now: int, sink: EventSink)
      modifies this`resting, this`shadows, this`cash, sink
      ensures var (w, events) := CheckLiquidation(cfg, old(State()), bar, now);
              State() == w && sink.events == old(sink.events) + events
    {
      hide MustLiquidate, ApplyShadow, FeeCosts, SettledCash, Slipped;
      var shadow := ShadowOf(shadows, bar.instrument);
      if !MustLiquidate(cfg, shadow, bar.close) {
        return;
      }
      var side := if shadow.net > 0 then Sell else Buy;
      var qty: int := Abs(shadow.net);
      var price := Slipped(cfg, bar.close, side);
      var costs := FeeCosts(cfg, bar.instrument, price, qty);
      SettleCash(side, price, qty, costs);
      var e := Liquidation(bar.instrument, side, price, qty, costs, now);
      sink.Emit(e);
      shadows := shadows[bar.instrument := ApplyShadow(shadow, side, price, qty)];
      var kept: seq<Resting> := [];
      ghost var before, closed := sink.events, State();
      for i := 0 to |resting|
        invariant State() == closed
        invariant var (k, events) := DropInstrument(resting[..i], bar.instrument, now); kept == k && sink.events == before + events
      {
        PrefixStep(resting, i);
        var r := resting[i];
        if r.order.instrument == bar.instrument {
          sink.Emit(OrderCanceled(r.id, VenueCanceled, now));
        } else {
          kept := kept + [r];
        }
      }
      assert resting[..|resting|] == resting;
      resting := kept;
      ghost var canceled := DropInstrument(old(resting), bar.instrument, now).1;
      assert (old(sink.events) + [e]) + canceled == old(sink.events) + ([e] + canceled);
    }

    method Observe(bar: Bar, now: int, sink: EventSink)
      modifies this, sink
      ensures var (w, events) := Observed(cfg, old(State()), bar, now);
              State() == w && sink.events == old(sink.events) + events
    {
      hide ScanBar, SettleFills, ResolveClaim, AccrueFunding, CheckLiquidation;
      ghost var start, before := Marked(State(), bar), sink.events;
      shadows := shadows[bar.instrument := ShadowOf(shadows, bar.instrument).(mark := bar.close)];
      var staged, claims := MatchResting(bar, now, sink);
      ghost var scanned := State();
      ghost var afterScan := sink.events;
      EmitFills(staged, now, sink);
      ghost var settled := State();
      ghost var afterFills := sink.events;
      for i := 0 to |claims|
        invariant State() == settled.(resting := resting)
        invariant var (kept, events) := ResolveClaims(settled.resting, claims[..i], now);
                  resting == kept && sink.events == afterFills + events
      {
        PrefixStep(claims, i);
        ReduceOrCancelSiblings(claims[i], now, sink);
      }
      assert claims[..|claims|] == claims;
      FundPosition(bar, now, sink);
      Liquidate(bar, now, sink);
    }
  }

  lemma EventsAppend(log: seq<AccountEvent>, d: Decision, id: nat, now: int)
    ensures log + d.Events(id, now) == log + (if d.triggered then [OrderTriggered(id, now)] else []) + Listed(d.ended)
  {
  }

  lemma ScanBegins(cfg: Config, bar: Bar, now: int, start: Scan)
    ensures ScanOrders(cfg, bar, now, [], start) == start
  {
  }

  lemma ScanContinues(cfg: Config, bar: Bar, now: int, pending: seq<Resting>, start: Scan, i: nat)
    requires i < |pending|
    ensures var s := ScanOrders(cfg, bar, now, pending[..i], start);
            ScanOrders(cfg, bar, now, pending[..i + 1], start) == Advance(s, pending[i], Decide(cfg, bar, now, s, pending[i]), now)
  {
    hide Decide, Advance;
    PrefixStep(pending, i);
  }
}
