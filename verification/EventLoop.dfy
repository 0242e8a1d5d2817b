/**
 * The engine in place: one object owning the venue, the portfolio, the event sink, the order gate
 * and the market, driven by a feed. Every method performs the step module Engine specifies.
 */
module EventLoop {
  import opened Prelude
  import opened Trading
  import opened Exchange
  import opened Portfolio
  import opened Engine
  import Sync
  import EngineSync
  import Simulated = SimulatedExchange

  class EventEngine<S> {
    const cfg: Config
    const strategy: Strategy<S>
    const exec: Simulated.Venue
    const portfolio: Book
    const sink: Simulated.EventSink
    var gate: Gate
    var market: MarketData
    var mind: S
    var curve: seq<(int, int)>
    var bars: nat
    ghost var ops: seq<Op>
    ghost var log: seq<AccountEvent>

    ghost predicate Valid()
      reads this, portfolio
    {
      exec.cfg == cfg && HeldExact(portfolio.State())
    }

    ghost function State(): Sys<S>
      reads this, exec, portfolio, sink
    {
      Sys(exec.State(), portfolio.State(), gate, market, mind, sink.events, curve, bars, ops, log)
    }

    constructor (cfg: Config, strategy: Strategy<S>, cash: int, mirrored: Option<int>)
      ensures Valid() && this.cfg == cfg && this.strategy == strategy
      ensures State() == Fresh(cfg, strategy, cash, mirrored)
      ensures fresh(exec) && fresh(portfolio) && fresh(sink)
    {
      this.cfg, this.strategy := cfg, strategy;
      exec := new Simulated.Venue(cfg, mirrored);
      portfolio := new Book(|cfg.specs|, cash);
      sink := new Simulated.EventSink();
      gate := Gate(0, [], []);
      market := MarketData(seq(|cfg.specs|, _ => []), map[]);
      mind := strategy.start;
      curve, bars, ops, log := [], 0, [], [];
    }

    /** Let the strategy react; buffer what it asks for. */
    method Call(callback: Callback, now: int)
      modifies this`mind, this`gate
      ensures State() == Called(strategy, old(State()), callback, now)
      ensures old(Valid()) ==> Valid()
    {
      var (next, actions) := strategy.react(mind, callback, View(market, portfolio.State(), gate, now));
      mind := next;
      ghost var before := gate;
      for i := 0 to |actions|
        invariant gate == BufferedAll(before, actions[..i]) && mind == next
      {
        PrefixStep(actions, i);
        gate := Buffered(gate, actions[i]);
      }
      assert actions[..|actions|] == actions;
    }

    /** Hand one action to the venue. */
    method Execute(op: Op)
      requires Valid()
      modifies this`ops, this`log, exec, sink
      ensures Valid() && State() == Executed(cfg, old(State()), op)
    {
      hide Submitted, Canceled, Observed;
      ghost var events := Exec(cfg, exec.State(), op).1;
      ops, log := ops + [op], log + events;
      match op
      case Submit(id, order, now) => exec.Submit(id, order, now, sink);
      case Cancel(id, now) => exec.Cancel(id, now, sink);
      case Observe(bar, now) => exec.Observe(bar, now, sink);
    }

    /** Route every buffered action to the venue, in submission order. */
    method RoutePending(now: int)
      requires Valid()
      modifies this`gate, this`ops, this`log, exec, sink
      ensures Valid() && State() == Routed(cfg, old(State()), now)
    {
      hide Executed;
      var taken := gate.pending;
      gate := gate.(pending := []);
      ghost var start := State();
      for i := 0 to |taken|
        invariant Valid() && State() == RoutedAll(cfg, start, taken[..i], now)
        invariant gate == start.gate
      {
        PrefixStep(taken, i);
        Execute(AsOp(taken[i], now));
      }
      assert taken[..|taken|] == taken;
    }

    /** Fire the timers due by now, in time order. */
    method FireDueTimers(now: int)
      modifies this`mind, this`gate
      ensures State() == TimersFired(strategy, old(State()), now)
      ensures old(Valid()) ==> Valid()
    {
      hide Called;
      var due := Due(gate.timers, now);
      gate := gate.(timers := NotDue(gate.timers, now));
      ghost var start := State();
      for i := 0 to |due|
        invariant State() == FiredAll(strategy, start, due[..i], now)
      {
        PrefixStep(due, i);
        Call(OnTimer(due[i]), now);
      }
      assert due[..|due|] == due;
    }

    /** Apply one account event, tell the strategy, route what it asks for. */
    method Handle(e: AccountEvent, now: int)
      requires Valid()
      modifies this`mind, this`gate, this`ops, this`log, exec, portfolio, sink
      ensures Valid() && State() == Handled(cfg, strategy, old(State()), e, now)
    {
      hide Called, Routed, Applied;
      AppliedOneKeepsHeld(portfolio.State(), e);
      portfolio.Apply(e);
      if HasSpecificCallback(e) {
        Call(OnSpecific(e), now);
      }
      Call(OnAccount(e), now);
      RoutePending(now);
    }

    /** Process the sink, which routed orders keep growing, until it is empty; false is the abort. */
    method Drain(now: int) returns (ok: bool)
      requires Valid()
      modifies this`mind, this`gate, this`ops, this`log, exec, portfolio, sink
      ensures Valid() && Drained(cfg, strategy, old(State()), now) == if ok then Some(State()) else None
    {
      hide Handled;
      ghost var start := State();
      var i := 0;
      while i < |sink.events|
        invariant Valid() && i <= MAX_DRAIN_EVENTS
        invariant DrainedFrom(cfg, strategy, start, 0, now) == DrainedFrom(cfg, strategy, State(), i, now)
        decreases MAX_DRAIN_EVENTS - i
      {
        if i >= MAX_DRAIN_EVENTS {
          return false;
        }
        Handle(sink.events[i], now);
        i := i + 1;
      }
      sink.events := [];
      return true;
    }

    method RouteAndDrainAll(now: int) returns (ok: bool)
      requires Valid()
      modifies this`mind, this`gate, this`ops, this`log, exec, portfolio, sink
      ensures Valid() && RouteAndDrain(cfg, strategy, old(State()), now) == if ok then Some(State()) else None
    {
      hide Routed, Drained;
      RoutePending(now);
      ok := Drain(now);
    }

    method Start() returns (ok: bool)
      requires Valid()
      modifies this`mind, this`gate, this`ops, this`log, exec, portfolio, sink
      ensures Valid()
      ensures RouteAndDrain(cfg, strategy, Called(strategy, old(State()), OnStart, 0), 0) == if ok then Some(State()) else None
    {
      hide Called, RouteAndDrain;
      Call(OnStart, 0);
      ok := RouteAndDrainAll(0);
    }

    /** Record the marked-to-market equity, summed over the open positions only. */
    method Sample(now: int)
      requires Valid()
      modifies this`curve
      ensures Valid() && State() == Sampled(old(State()), now)
    {
      var equity := MarkToMarket(portfolio.State(), MarksOf(market));
      curve := curve + [(now, equity)];
    }

    /** The rest of a bar once its fills have been drained. */
    method Decide(bar: Bar) returns (ok: bool)
      requires Valid()
      modifies this, exec, portfolio, sink
      ensures Valid() && Decided(cfg, strategy, old(State()), bar) == if ok then Some(State()) else None
    {
      hide TimersFired, Called, RouteAndDrain, Pushed, Sampled;
      market := Pushed(market, bar);
      FireDueTimers(bar.ts);
      Call(OnBar(bar), bar.ts);
      bars := bars + 1;
      ok := RouteAndDrainAll(bar.ts);
      if ok {
        Sample(bar.ts);
      }
    }

    /** One event: the venue reacts and is drained first, then the engine does what the event asks. */
    method Process(event: Event) returns (ok: bool)
      requires Valid()
      modifies this, exec, portfolio, sink
      ensures Valid() && Stepped(cfg, strategy, old(State()), event) == if ok then Some(State()) else None
    {
      hide TimersFired, Drained, RouteAndDrain, Decided, Signaled, Executed;
      var now := event.Ts();
      if event.BarEvent? {
        Execute(Observe(event.bar, now));
      }
      ok := Drain(now);
      if ok {
        match event
        case BarEvent(bar) =>
          ok := Decide(bar);
        case ResyncEvent(scope, at) =>
          sink.Emit(Resync(scope, at));
          FireDueTimers(now);
          ok := Drain(now);
        case SignalEvent(instrument, channel, value, _) =>
          market := Signaled(market, instrument, channel, value);
          FireDueTimers(now);
          ok := RouteAndDrainAll(now);
      }
    }

    /** The whole run over a feed: start, every event in order, a last timer sweep, stop. */
    method Run(events: seq<Event>, ghost cash: int, ghost mirrored: Option<int>) returns (ok: bool)
      requires Valid() && State() == Fresh(cfg, strategy, cash, mirrored)
      modifies this, exec, portfolio, sink
      ensures Finished(cfg, strategy, cash, mirrored, events) == if ok then Some(State()) else None
      ensures ok && (mirrored.Some? ==> mirrored.value == cash) ==> Sync.InStep(exec.State(), portfolio.State())
    {
      hide Stepped, TimersFired, Called, RouteAndDrain, Fresh, Stopped, Sync.InStep;
      ok := Start();
      var now := 0;
      var i := 0;
      while ok && i < |events|
        invariant Valid() && i <= |events|
        invariant Ran(cfg, strategy, cash, mirrored, events[..i]) == if ok then Some(State()) else None
        invariant now == if i == 0 then 0 else events[i - 1].Ts()
      {
        PrefixStep(events, i);
        now := events[i].Ts();
        ok := Process(events[i]);
        i := i + 1;
      }
      if !ok {
        AbortsStay(events, cash, mirrored, i);
        return false;
      }
      assert events[..|events|] == events;
      ok := Stop(now);
      if ok && (mirrored.Some? ==> mirrored.value == cash) {
        FinishedInStep(cfg, strategy, cash, mirrored, events);
      }
    }

    /** The last timer sweep, then the stop callback and what it asks for. */
    method Stop(now: int) returns (ok: bool)
      requires Valid()
      modifies this`mind, this`gate, this`ops, this`log, exec, portfolio, sink
      ensures Valid() && Stopped(cfg, strategy, old(State()), now) == if ok then Some(State()) else None
    {
      hide TimersFired, Called, RouteAndDrain;
      FireDueTimers(now);
      Call(OnStop, now);
      ok := RouteAndDrainAll(now);
    }

    /** A run that was aborted has no result. */
    lemma AbortsStay(events: seq<Event>, cash: int, mirrored: Option<int>, i: nat)
      requires i <= |events| && Ran(cfg, strategy, cash, mirrored, events[..i]) == None
      ensures Ran(cfg, strategy, cash, mirrored, events) == None
      decreases |events| - i
    {
      hide Started, Stepped;
      if i == |events| {
        assert events[..i] == events;
      } else {
        PrefixStep(events, i);
        AbortsStay(events, cash, mirrored, i + 1);
      }
    }
  }

  lemma AppliedOneKeepsHeld(a: Account, e: AccountEvent)
    requires HeldExact(a)
    ensures HeldExact(Applied(a, e))
  {
    HeldStaysExact(a, [e]);
    assert [e][..0] == [] && AppliedAll(a, [e][..0]) == a;
  }

  /** Venue and portfolio agree at the end of every completed run. */
  lemma FinishedInStep<S>(cfg: Config, strategy: Strategy<S>, cash: int, mirrored: Option<int>, events: seq<Event>)
    requires mirrored.Some? ==> mirrored.value == cash
    ensures var sys := Finished(cfg, strategy, cash, mirrored, events);
            sys.Some? ==> Sync.InStep(sys.value.venue, sys.value.account)
  {
    hide Finished, Sync.InStep, EngineSync.Faithful;
    EngineSync.FinishIsFaithful(cfg, cash, mirrored, strategy, events);
    var sys := Finished(cfg, strategy, cash, mirrored, events);
    if sys.Some? { EngineSync.DrainedIsInStep(cfg, cash, mirrored, sys.value); }
  }
}
