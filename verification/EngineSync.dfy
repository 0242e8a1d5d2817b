/**
 * What the event loop guarantees for every strategy, bar sequence and configuration: whenever the
 * event queue has been drained, the portfolio is exactly the fold of everything the venue
 * emitted, and so the portfolio and the venue are in step.
 */
module EngineSync {
  import opened Prelude
  import opened Trading
  import opened Exchange
  import opened Lifecycle
  import opened Portfolio
  import opened Sync
  import opened Engine

  // ---------------------------------------------------------------- ids

  /** Ids already used, then ids buffered, ascend below the counter. */
  ghost predicate FreshGate(ops: seq<Op>, gate: Gate) {
    && FreshIds(ops)
    && (forall i :: 0 <= i < |ops| && ops[i].Submit? ==> ops[i].id < gate.nextId)
    && FreshActions(ops, gate.pending, gate.nextId)
  }

  ghost predicate FreshActions(ops: seq<Op>, pending: seq<GateAction>, nextId: nat) {
    && (forall k :: 0 <= k < |pending| && pending[k].Place? ==> pending[k].id < nextId)
    && (forall k, l :: 0 <= k < l < |pending| && pending[k].Place? && pending[l].Place? ==> pending[k].id < pending[l].id)
    && (forall i, k :: 0 <= i < |ops| && 0 <= k < |pending| && ops[i].Submit? && pending[k].Place? ==> ops[i].id < pending[k].id)
  }

  lemma {:induction false} BufferingStaysFresh(ops: seq<Op>, gate: Gate, actions: seq<Action>)
    requires FreshGate(ops, gate)
    ensures FreshGate(ops, BufferedAll(gate, actions))
  {
    if actions != [] { BufferingStaysFresh(ops, gate, actions[..|actions| - 1]); }
  }

  // ---------------------------------------------------------------- the loop invariant

  /**
   * The engine's books: the venue is where its operations took it, and the account, once it has
   * applied the events still queued from position i on, is the fold of everything emitted.
   */
  ghost predicate Faithful<S>(cfg: Config, cash: int, mirrored: Option<int>, sys: Sys<S>, i: nat) {
    && i <= |sys.sink|
    && FreshGate(sys.ops, sys.gate)
    && RunOps(cfg, mirrored, sys.ops) == (sys.venue, sys.log)
    && AppliedAll(sys.account, sys.sink[i..]) == Rebuilt(cfg, cash, sys.log)
  }

  lemma CallIsFaithful<S>(cfg: Config, cash: int, mirrored: Option<int>, strategy: Strategy<S>, sys: Sys<S>, callback: Callback, now: int, i: nat)
    requires Faithful(cfg, cash, mirrored, sys, i)
    ensures Faithful(cfg, cash, mirrored, Called(strategy, sys, callback, now), i)
  {
    BufferingStaysFresh(sys.ops, sys.gate, strategy.react(sys.mind, callback, View(sys.market, sys.account, sys.gate, now)).1);
  }

  /** The venue's part of the invariant, while a batch of actions is being routed. */
  ghost predicate Routing<S>(cfg: Config, cash: int, mirrored: Option<int>, sys: Sys<S>, i: nat, rest: seq<GateAction>) {
    && Faithful(cfg, cash, mirrored, sys, i) && sys.gate.pending == []
    && FreshActions(sys.ops, rest, sys.gate.nextId)
  }

  lemma ExecutingIsFaithful<S>(cfg: Config, cash: int, mirrored: Option<int>, sys: Sys<S>, op: Op, i: nat)
    requires Faithful(cfg, cash, mirrored, sys, i)
    requires FreshGate(sys.ops + [op], sys.gate)
    ensures Faithful(cfg, cash, mirrored, Executed(cfg, sys, op), i)
  {
    hide Exec, NewAccount, AppliedAll, FreshGate;
    var events := Exec(cfg, sys.venue, op).1;
    assert (sys.ops + [op])[..|sys.ops|] == sys.ops;
    assert (sys.sink + events)[i..] == sys.sink[i..] + events;
    AppliedConcat(sys.account, sys.sink[i..], events);
    AppliedConcat(NewAccount(|cfg.specs|, cash), sys.log, events);
  }

  lemma FreshOp(ops: seq<Op>, pending: seq<GateAction>, k: nat, nextId: nat, gate: Gate, now: int)
    requires k < |pending| && FreshActions(ops, pending[k..], nextId) && FreshGate(ops, gate)
    requires gate.pending == [] && gate.nextId == nextId
    ensures FreshGate(ops + [AsOp(pending[k], now)], gate)
    ensures FreshActions(ops + [AsOp(pending[k], now)], pending[k + 1..], nextId)
  {
    var op := AsOp(pending[k], now);
    assert pending[k..][0] == pending[k];
    assert pending[k + 1..] == pending[k..][1..];
  }

  lemma {:induction false} RoutingIsFaithful<S>(cfg: Config, cash: int, mirrored: Option<int>, sys: Sys<S>, actions: seq<GateAction>, k: nat, now: int, i: nat)
    requires k <= |actions| && Routing(cfg, cash, mirrored, sys, i, actions)
    ensures Routing(cfg, cash, mirrored, RoutedAll(cfg, sys, actions[..k], now), i, actions[k..])
    decreases k
  {
    hide Exec, RunOps, FreshIds, FreshActions, AppliedAll, Rebuilt;
    if k == 0 {
      assert actions[..0] == [] && actions[0..] == actions;
    } else {
      RoutingIsFaithful(cfg, cash, mirrored, sys, actions, k - 1, now, i);
      PrefixStep(actions, k - 1);
      var s := RoutedAll(cfg, sys, actions[..k - 1], now);
      FreshOp(s.ops, actions, k - 1, s.gate.nextId, s.gate, now);
      ExecutingIsFaithful(cfg, cash, mirrored, s, AsOp(actions[k - 1], now), i);
    }
  }

  lemma RouteIsFaithful<S>(cfg: Config, cash: int, mirrored: Option<int>, sys: Sys<S>, now: int, i: nat)
    requires Faithful(cfg, cash, mirrored, sys, i)
    ensures Faithful(cfg, cash, mirrored, Routed(cfg, sys, now), i)
  {
    var pending := sys.gate.pending;
    RoutingIsFaithful(cfg, cash, mirrored, sys.(gate := sys.gate.(pending := [])), pending, |pending|, now, i);
    assert pending[..|pending|] == pending;
  }

  lemma HandlingIsFaithful<S>(cfg: Config, cash: int, mirrored: Option<int>, strategy: Strategy<S>, sys: Sys<S>, i: nat, now: int)
    requires Faithful(cfg, cash, mirrored, sys, i) && i < |sys.sink|
    ensures Faithful(cfg, cash, mirrored, Handled(cfg, strategy, sys, sys.sink[i], now), i + 1)
  {
    hide Called, Routed, Applied, FreshGate;
    var e := sys.sink[i];
    assert sys.sink[i..] == [e] + sys.sink[i + 1..];
    AppliedConcat(sys.account, [e], sys.sink[i + 1..]);
    AppliedOne(sys.account, e);
    var applied := sys.(account := Applied(sys.account, e));
    assert Faithful(cfg, cash, mirrored, applied, i + 1);
    hide Faithful;
    if HasSpecificCallback(e) {
      CallIsFaithful(cfg, cash, mirrored, strategy, applied, OnSpecific(e), now, i + 1);
    }
    var told := if HasSpecificCallback(e) then Called(strategy, applied, OnSpecific(e), now) else applied;
    CallIsFaithful(cfg, cash, mirrored, strategy, told, OnAccount(e), now, i + 1);
    RouteIsFaithful(cfg, cash, mirrored, Called(strategy, told, OnAccount(e), now), now, i + 1);
  }

  lemma {:induction false} DrainingIsFaithful<S>(cfg: Config, cash: int, mirrored: Option<int>, strategy: Strategy<S>, sys: Sys<S>, i: nat, now: int)
    requires Faithful(cfg, cash, mirrored, sys, i)
    ensures var done := DrainedFrom(cfg, strategy, sys, i, now);
            done.Some? ==> Faithful(cfg, cash, mirrored, done.value, 0) && done.value.sink == []
    decreases MAX_DRAIN_EVENTS - i
  {
    hide Handled;
    if i >= |sys.sink| {
      assert sys.sink[i..] == [];
      var drained := sys.(sink := []);
      assert drained.sink[0..] == [];
    } else if i < MAX_DRAIN_EVENTS {
      HandlingIsFaithful(cfg, cash, mirrored, strategy, sys, i, now);
      DrainingIsFaithful(cfg, cash, mirrored, strategy, Handled(cfg, strategy, sys, sys.sink[i], now), i + 1, now);
    }
  }

  lemma {:induction false} FiringIsFaithful<S>(cfg: Config, cash: int, mirrored: Option<int>, strategy: Strategy<S>, sys: Sys<S>, due: seq<int>, now: int, i: nat)
    requires Faithful(cfg, cash, mirrored, sys, i)
    ensures Faithful(cfg, cash, mirrored, FiredAll(strategy, sys, due, now), i)
  {
    hide Faithful, Called;
    if due != [] {
      FiringIsFaithful(cfg, cash, mirrored, strategy, sys, due[..|due| - 1], now, i);
      CallIsFaithful(cfg, cash, mirrored, strategy, FiredAll(strategy, sys, due[..|due| - 1], now), OnTimer(due[|due| - 1]), now, i);
    }
  }

  lemma TimersAreFaithful<S>(cfg: Config, cash: int, mirrored: Option<int>, strategy: Strategy<S>, sys: Sys<S>, now: int, i: nat)
    requires Faithful(cfg, cash, mirrored, sys, i)
    ensures Faithful(cfg, cash, mirrored, TimersFired(strategy, sys, now), i)
  {
    var waiting := sys.(gate := sys.gate.(timers := NotDue(sys.gate.timers, now)));
    assert Faithful(cfg, cash, mirrored, waiting, i);
    FiringIsFaithful(cfg, cash, mirrored, strategy, waiting, Due(sys.gate.timers, now), now, i);
  }

  lemma RouteAndDrainIsFaithful<S>(cfg: Config, cash: int, mirrored: Option<int>, strategy: Strategy<S>, sys: Sys<S>, now: int)
    requires Faithful(cfg, cash, mirrored, sys, 0)
    ensures var done := RouteAndDrain(cfg, strategy, sys, now);
            done.Some? ==> Faithful(cfg, cash, mirrored, done.value, 0) && done.value.sink == []
  {
    hide Faithful, Routed, DrainedFrom;
    RouteIsFaithful(cfg, cash, mirrored, sys, now, 0);
    DrainingIsFaithful(cfg, cash, mirrored, strategy, Routed(cfg, sys, now), 0, now);
  }

  lemma StartIsFaithful<S>(cfg: Config, cash: int, mirrored: Option<int>, strategy: Strategy<S>)
    ensures var sys := Started(cfg, strategy, cash, mirrored);
            sys.Some? ==> Faithful(cfg, cash, mirrored, sys.value, 0) && sys.value.sink == []
  {
    hide Called, RouteAndDrain;
    var blank := Fresh(cfg, strategy, cash, mirrored);
    assert Faithful(cfg, cash, mirrored, blank, 0);
    CallIsFaithful(cfg, cash, mirrored, strategy, blank, OnStart, 0, 0);
    RouteAndDrainIsFaithful(cfg, cash, mirrored, strategy, Called(strategy, blank, OnStart, 0), 0);
  }

  lemma ObservingIsFresh(ops: seq<Op>, gate: Gate, bar: Bar, now: int)
    requires FreshGate(ops, gate)
    ensures FreshGate(ops + [Observe(bar, now)], gate)
  {
  }

  lemma ObservingIsFaithful<S>(cfg: Config, cash: int, mirrored: Option<int>, sys: Sys<S>, bar: Bar, now: int)
    requires Faithful(cfg, cash, mirrored, sys, 0)
    ensures Faithful(cfg, cash, mirrored, Executed(cfg, sys, Observe(bar, now)), 0)
  {
    hide RunOps, Rebuilt, AppliedAll, Executed, FreshGate;
    ObservingIsFresh(sys.ops, sys.gate, bar, now);
    ExecutingIsFaithful(cfg, cash, mirrored, sys, Observe(bar, now), 0);
  }

  lemma SideDataIsFaithful<S>(cfg: Config, cash: int, mirrored: Option<int>, sys: Sys<S>, t: Sys<S>, i: nat)
    requires Faithful(cfg, cash, mirrored, sys, i)
    requires t == sys.(market := t.market, curve := t.curve, bars := t.bars)
    ensures Faithful(cfg, cash, mirrored, t, i)
  {
  }

  lemma DecidingIsFaithful<S>(cfg: Config, cash: int, mirrored: Option<int>, strategy: Strategy<S>, sys: Sys<S>, bar: Bar)
    requires Faithful(cfg, cash, mirrored, sys, 0)
    ensures var done := Decided(cfg, strategy, sys, bar);
            done.Some? ==> Faithful(cfg, cash, mirrored, done.value, 0) && done.value.sink == []
  {
    hide Faithful, TimersFired, Called, RouteAndDrain, Pushed, Equity;
    var pushed := sys.(market := Pushed(sys.market, bar));
    SideDataIsFaithful(cfg, cash, mirrored, sys, pushed, 0);
    TimersAreFaithful(cfg, cash, mirrored, strategy, pushed, bar.ts, 0);
    var timed := TimersFired(strategy, pushed, bar.ts);
    CallIsFaithful(cfg, cash, mirrored, strategy, timed, OnBar(bar), bar.ts, 0);
    var called := Called(strategy, timed, OnBar(bar), bar.ts);
    var counted := called.(bars := called.bars + 1);
    SideDataIsFaithful(cfg, cash, mirrored, called, counted, 0);
    RouteAndDrainIsFaithful(cfg, cash, mirrored, strategy, counted, bar.ts);
    var done := RouteAndDrain(cfg, strategy, counted, bar.ts);
    if done.Some? {
      SideDataIsFaithful(cfg, cash, mirrored, done.value, Sampled(done.value, bar.ts), 0);
    }
  }

  /** A resync marker is no account change: queueing it alters nothing the account will become. */
  lemma ResyncIsFaithful<S>(cfg: Config, cash: int, mirrored: Option<int>, sys: Sys<S>, scope: Option<nat>, at: int)
    requires Faithful(cfg, cash, mirrored, sys, 0) && sys.sink == []
    ensures Faithful(cfg, cash, mirrored, sys.(sink := sys.sink + [Resync(scope, at)]), 0)
  {
    hide FreshGate, RunOps, Rebuilt;
    assert [] + [Resync(scope, at)] == [Resync(scope, at)];
    assert [Resync(scope, at)][0..] == [Resync(scope, at)];
    AppliedOne(sys.account, Resync(scope, at));
    assert sys.sink[0..] == [];
  }

  lemma StepIsFaithful<S>(cfg: Config, cash: int, mirrored: Option<int>, strategy: Strategy<S>, sys: Sys<S>, event: Event)
    requires Faithful(cfg, cash, mirrored, sys, 0)
    ensures var done := Stepped(cfg, strategy, sys, event);
            done.Some? ==> Faithful(cfg, cash, mirrored, done.value, 0) && done.value.sink == []
  {
    hide Faithful, DrainedFrom, Executed, Decided, TimersFired, RouteAndDrain, Signaled;
    var now := event.Ts();
    match event
    case BarEvent(bar) =>
      ObservingIsFaithful(cfg, cash, mirrored, sys, bar, now);
      var observed := Executed(cfg, sys, Observe(bar, now));
      DrainingIsFaithful(cfg, cash, mirrored, strategy, observed, 0, now);
      var filled := Drained(cfg, strategy, observed, now);
      if filled.Some? { DecidingIsFaithful(cfg, cash, mirrored, strategy, filled.value, bar); }
    case ResyncEvent(scope, at) =>
      DrainingIsFaithful(cfg, cash, mirrored, strategy, sys, 0, now);
      var quiet := Drained(cfg, strategy, sys, now);
      if quiet.Some? {
        ResyncIsFaithful(cfg, cash, mirrored, quiet.value, scope, at);
        var queued := quiet.value.(sink := quiet.value.sink + [Resync(scope, at)]);
        TimersAreFaithful(cfg, cash, mirrored, strategy, queued, now, 0);
        DrainingIsFaithful(cfg, cash, mirrored, strategy, TimersFired(strategy, queued, now), 0, now);
      }
    case SignalEvent(instrument, channel, value, _) =>
      DrainingIsFaithful(cfg, cash, mirrored, strategy, sys, 0, now);
      var quiet := Drained(cfg, strategy, sys, now);
      if quiet.Some? {
        var seen := quiet.value.(market := Signaled(quiet.value.market, instrument, channel, value));
        SideDataIsFaithful(cfg, cash, mirrored, quiet.value, seen, 0);
        TimersAreFaithful(cfg, cash, mirrored, strategy, seen, now, 0);
        RouteAndDrainIsFaithful(cfg, cash, mirrored, strategy, TimersFired(strategy, seen, now), now);
      }
  }

  lemma {:induction false} RunIsFaithful<S>(cfg: Config, cash: int, mirrored: Option<int>, strategy: Strategy<S>, events: seq<Event>)
    ensures var sys := Ran(cfg, strategy, cash, mirrored, events);
            sys.Some? ==> Faithful(cfg, cash, mirrored, sys.value, 0) && sys.value.sink == []
  {
    hide Faithful, Started, Stepped;
    if events == [] {
      StartIsFaithful(cfg, cash, mirrored, strategy);
    } else {
      RunIsFaithful(cfg, cash, mirrored, strategy, events[..|events| - 1]);
      var sys := Ran(cfg, strategy, cash, mirrored, events[..|events| - 1]);
      if sys.Some? { StepIsFaithful(cfg, cash, mirrored, strategy, sys.value, events[|events| - 1]); }
    }
  }

  lemma FinishIsFaithful<S>(cfg: Config, cash: int, mirrored: Option<int>, strategy: Strategy<S>, events: seq<Event>)
    ensures var sys := Finished(cfg, strategy, cash, mirrored, events);
            sys.Some? ==> Faithful(cfg, cash, mirrored, sys.value, 0) && sys.value.sink == []
  {
    hide Faithful, Ran, TimersFired, Called, RouteAndDrain;
    RunIsFaithful(cfg, cash, mirrored, strategy, events);
    var sys := Ran(cfg, strategy, cash, mirrored, events);
    if sys.Some? {
      var now := if events == [] then 0 else events[|events| - 1].Ts();
      TimersAreFaithful(cfg, cash, mirrored, strategy, sys.value, now, 0);
      CallIsFaithful(cfg, cash, mirrored, strategy, TimersFired(strategy, sys.value, now), OnStop, now, 0);
      RouteAndDrainIsFaithful(cfg, cash, mirrored, strategy, Called(strategy, TimersFired(strategy, sys.value, now), OnStop, now), now);
    }
  }

  /** Faithful and drained is in step, with the books of every order balanced. */
  lemma DrainedIsInStep<S>(cfg: Config, cash: int, mirrored: Option<int>, sys: Sys<S>)
    requires Faithful(cfg, cash, mirrored, sys, 0) && sys.sink == [] && (mirrored.Some? ==> mirrored.value == cash)
    ensures sys.account == Rebuilt(cfg, cash, sys.log)
    ensures InStep(sys.venue, sys.account)
    ensures Books(Submissions(sys.ops), sys.venue, sys.log)
  {
    assert sys.sink[0..] == [];
    EveryRunStaysInStep(cfg, cash, mirrored, sys.ops);
    EveryRunKeepsTheBooks(cfg, mirrored, sys.ops);
  }

  /**
   * After every drain, whatever the strategy does with the events it is handed, the portfolio's
   * open orders are the venue's resting orders, its positions the shadow positions and its cash
   * the mirrored cash.
   */
  lemma EveryDrainEndsInStep<S>(cfg: Config, cash: int, mirrored: Option<int>, strategy: Strategy<S>, sys: Sys<S>, now: int)
    requires Faithful(cfg, cash, mirrored, sys, 0) && (mirrored.Some? ==> mirrored.value == cash)
    ensures var done := Drained(cfg, strategy, sys, now);
            done.Some? ==> InStep(done.value.venue, done.value.account)
  {
    hide DrainedFrom, Faithful, InStep;
    DrainingIsFaithful(cfg, cash, mirrored, strategy, sys, 0, now);
    var done := Drained(cfg, strategy, sys, now);
    if done.Some? { DrainedIsInStep(cfg, cash, mirrored, done.value); }
  }

  /** The same for whole runs: after any number of events, for any strategy. */
  lemma EveryEngineRunStaysInStep<S>(cfg: Config, cash: int, mirrored: Option<int>, strategy: Strategy<S>, events: seq<Event>)
    requires mirrored.Some? ==> mirrored.value == cash
    ensures var sys := Ran(cfg, strategy, cash, mirrored, events);
            sys.Some? ==>
              && InStep(sys.value.venue, sys.value.account)
              && sys.value.account == Rebuilt(cfg, cash, sys.value.log)
              && Books(Submissions(sys.value.ops), sys.value.venue, sys.value.log)
  {
    hide Ran, InStep, Books;
    RunIsFaithful(cfg, cash, mirrored, strategy, events);
    var sys := Ran(cfg, strategy, cash, mirrored, events);
    if sys.Some? { DrainedIsInStep(cfg, cash, mirrored, sys.value); }
  }
}
