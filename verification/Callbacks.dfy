/**
 * What a strategy is told, and what becomes of what it asks. A recorder around any strategy notes
 * every callback with the view it came with. Over every completed run the notes are, in order, the
 * start, every event the venue emitted, the timers as they fall due, each bar once and the stop; each
 * event is heard with the account that has just applied it; and everything asked for reaches the
 * venue, in order, before the next event is heard.
 */
module Callbacks {
  import opened Prelude
  import opened Trading
  import opened Exchange
  import opened Portfolio
  import opened Engine
  import opened Sorting
  import opened OrderTerms
  import opened Sync
  import opened Runs

  // ---------------------------------------------------------------- the recorder

  datatype Hearing = Hearing(callback: Callback, account: Account, market: MarketData, now: int)

  /** A callback as it was heard, what was still buffered then, and what was asked in answer. */
  datatype Note = Note(heard: Hearing, buffered: seq<GateAction>, asked: seq<Action>)

  datatype Recorder<S> = Recorder(mind: S, notes: seq<Note>)

  /** The strategy, with a note of each callback. */
  function Recording<S>(strategy: Strategy<S>): Strategy<Recorder<S>> {
    Strategy(Recorder(strategy.start, []),
             (r: Recorder<S>, callback: Callback, view: View) =>
               var (mind, asked) := strategy.react(r.mind, callback, view);
               (Recorder(mind, r.notes + [Note(Hearing(callback, view.account, view.market, view.now), view.gate.pending, asked)]), asked))
  }

  function Hearings(notes: seq<Note>): seq<Hearing> {
    if notes == [] then [] else Hearings(notes[..|notes| - 1]) + [notes[|notes| - 1].heard]
  }

  lemma {:induction false} HearingsConcat(a: seq<Note>, b: seq<Note>)
    ensures Hearings(a + b) == Hearings(a) + Hearings(b)
  {
    if b == [] {
      assert a + b == a;
    } else {
      HearingsConcat(a, b[..|b| - 1]);
      assert (a + b)[..|a + b| - 1] == a + b[..|b| - 1];
    }
  }

  // ---------------------------------------------------------------- what is heard of the events

  /** An event is heard by its own callback, if it has one, and then by the common one, once it has been applied. */
  function EventHeard(account: Account, market: MarketData, e: AccountEvent, now: int): seq<Hearing> {
    (if HasSpecificCallback(e) then [Hearing(OnSpecific(e), account, market, now)] else []) + [Hearing(OnAccount(e), account, market, now)]
  }

  /** Each of the events in turn, with the account as all up to it leave it. */
  function EventsHeard(account: Account, market: MarketData, events: seq<AccountEvent>, now: int): seq<Hearing> {
    if events == [] then
      []
    else
      EventsHeard(account, market, events[..|events| - 1], now)
      + EventHeard(AppliedAll(account, events), market, events[|events| - 1], now)
  }

  lemma EventsHeardPush(account: Account, market: MarketData, events: seq<AccountEvent>, e: AccountEvent, now: int)
    ensures EventsHeard(account, market, events + [e], now)
            == EventsHeard(account, market, events, now) + EventHeard(AppliedAll(account, events + [e]), market, e, now)
  {
    hide EventHeard, AppliedAll;
    assert (events + [e])[..|events|] == events;
  }

  lemma {:induction false} EventsHeardConcat(account: Account, market: MarketData, a: seq<AccountEvent>, b: seq<AccountEvent>, now: int)
    ensures EventsHeard(account, market, a + b, now) == EventsHeard(account, market, a, now) + EventsHeard(AppliedAll(account, a), market, b, now)
  {
    hide EventHeard, AppliedAll, EventsHeard;
    if b == [] {
      assert a + b == a;
      NoneHeard(AppliedAll(account, a), market, b, now);
    } else {
      var init, e := b[..|b| - 1], b[|b| - 1];
      assert init + [e] == b && (a + init) + [e] == a + b;
      EventsHeardConcat(account, market, a, init, now);
      EventsHeardPush(account, market, a + init, e, now);
      EventsHeardPush(AppliedAll(account, a), market, init, e, now);
      AppliedConcat(account, a, b);
      Associates(EventsHeard(account, market, a, now), EventsHeard(AppliedAll(account, a), market, init, now),
                 EventHeard(AppliedAll(account, a + b), market, e, now));
    }
  }

  lemma NoneHeard(account: Account, market: MarketData, events: seq<AccountEvent>, now: int)
    requires events == []
    ensures EventsHeard(account, market, events, now) == []
  {
  }

  lemma OneHeard(account: Account, market: MarketData, e: AccountEvent, now: int)
    ensures EventsHeard(account, market, [e], now) == EventHeard(Applied(account, e), market, e, now)
  {
    hide EventHeard, Applied;
    AppliedOne(account, e);
    assert [e][..0] == [] && EventsHeard(account, market, [], now) == [];
  }

  function TimersHeard(account: Account, market: MarketData, due: seq<int>, now: int): seq<Hearing> {
    if due == [] then []
    else TimersHeard(account, market, due[..|due| - 1], now) + [Hearing(OnTimer(due[|due| - 1]), account, market, now)]
  }

  // ---------------------------------------------------------------- one step of hearing

  /** From s to t exactly this was heard. */
  ghost predicate Heard<S>(s: Sys<Recorder<S>>, t: Sys<Recorder<S>>, more: seq<Hearing>) {
    && |s.mind.notes| <= |t.mind.notes| && t.mind.notes[..|s.mind.notes|] == s.mind.notes
    && Hearings(t.mind.notes[|s.mind.notes|..]) == more
  }

  lemma HeardTwice<S>(s: Sys<Recorder<S>>, t: Sys<Recorder<S>>, u: Sys<Recorder<S>>, a: seq<Hearing>, b: seq<Hearing>)
    requires Heard(s, t, a) && Heard(t, u, b)
    ensures Heard(s, u, a + b)
  {
    var x, y := t.mind.notes[|s.mind.notes|..], u.mind.notes[|t.mind.notes|..];
    HearingsConcat(x, y);
    assert u.mind.notes[|s.mind.notes|..] == x + y;
    assert u.mind.notes[..|s.mind.notes|] == t.mind.notes[..|s.mind.notes|];
  }

  lemma HeardNothing<S>(s: Sys<Recorder<S>>, t: Sys<Recorder<S>>)
    requires t.mind == s.mind
    ensures Heard(s, t, [])
  {
  }

  lemma CallIsHeard<S>(strategy: Strategy<S>, s: Sys<Recorder<S>>, callback: Callback, now: int)
    ensures var t := Called(Recording(strategy), s, callback, now);
            && Heard(s, t, [Hearing(callback, s.account, s.market, now)])
            && t == s.(mind := t.mind, gate := t.gate)
  {
    var t := Called(Recording(strategy), s, callback, now);
    var n := t.mind.notes[|s.mind.notes|..];
    assert n == [n[0]] && n[..0] == [];
    assert Hearings(n[..0]) == [];
  }

  /** The bars the venue was shown, among all it performed. */
  function BarsIn(ops: seq<Op>): seq<Op> {
    if ops == [] then [] else BarsIn(ops[..|ops| - 1]) + if ops[|ops| - 1].Observe? then [ops[|ops| - 1]] else []
  }

  lemma BarsInPush(ops: seq<Op>, op: Op)
    ensures BarsIn(ops + [op]) == BarsIn(ops) + if op.Observe? then [op] else []
  {
    assert (ops + [op])[..|ops|] == ops;
  }

  /** Routing tells the strategy nothing; it only adds to what is to be told. */
  ghost predicate OnlyRouted<S>(s: Sys<S>, t: Sys<S>) {
    && t.mind == s.mind && t.account == s.account && t.market == s.market && t.curve == s.curve && t.bars == s.bars
    && t.gate.timers == s.gate.timers && t.gate.nextId == s.gate.nextId
    && |s.log| <= |t.log| && t.log[..|s.log|] == s.log
    && t.sink == s.sink + t.log[|s.log|..] && BarsIn(t.ops) == BarsIn(s.ops)
  }

  lemma ExecutingTellsNothing<S>(cfg: Config, s: Sys<S>, op: Op)
    requires !op.Observe?
    ensures OnlyRouted(s, Executed(cfg, s, op))
  {
    hide Exec, BarsIn;
    BarsInPush(s.ops, op);
    assert (s.log + Exec(cfg, s.venue, op).1)[|s.log|..] == Exec(cfg, s.venue, op).1;
  }

  lemma GrownTwice<T>(a: seq<T>, b: seq<T>, c: seq<T>)
    requires |a| <= |b| <= |c| && b[..|a|] == a && c[..|b|] == b
    ensures c[..|a|] == a && c[|a|..] == b[|a|..] + c[|b|..]
  {
  }

  lemma RoutedTwice<S>(s: Sys<S>, t: Sys<S>, u: Sys<S>)
    requires OnlyRouted(s, t) && OnlyRouted(t, u)
    ensures OnlyRouted(s, u)
  {
    hide BarsIn;
    GrownTwice(s.log, t.log, u.log);
    Associates(s.sink, t.log[|s.log|..], u.log[|t.log|..]);
  }

  lemma {:induction false} RoutingTellsNothing<S>(cfg: Config, s: Sys<S>, actions: seq<GateAction>, now: int)
    ensures OnlyRouted(s, RoutedAll(cfg, s, actions, now))
  {
    if actions == [] {
      hide BarsIn;
      assert s.log[|s.log|..] == [];
    } else {
      hide Executed, OnlyRouted;
      var u := RoutedAll(cfg, s, actions[..|actions| - 1], now);
      RoutingTellsNothing(cfg, s, actions[..|actions| - 1], now);
      ExecutingTellsNothing(cfg, u, AsOp(actions[|actions| - 1], now));
      RoutedTwice(s, u, Executed(cfg, u, AsOp(actions[|actions| - 1], now)));
    }
  }

  // ---------------------------------------------------------------- one event, one drain

  ghost predicate LogGrew<S>(s: Sys<S>, t: Sys<S>) {
    |s.log| <= |t.log| && t.log[..|s.log|] == s.log && BarsIn(t.ops) == BarsIn(s.ops)
  }

  /** All of `told` was applied and heard, and what came of it queued behind. */
  ghost predicate Digested<S>(s: Sys<Recorder<S>>, t: Sys<Recorder<S>>, told: seq<AccountEvent>, now: int) {
    && Heard(s, t, EventsHeard(s.account, s.market, told, now))
    && t.account == AppliedAll(s.account, told) && t.market == s.market && t.curve == s.curve && t.bars == s.bars
    && LogGrew(s, t)
  }

  lemma HandlingIsHeard<S>(cfg: Config, strategy: Strategy<S>, s: Sys<Recorder<S>>, e: AccountEvent, now: int)
    ensures var t := Handled(cfg, Recording(strategy), s, e, now);
            && Heard(s, t, EventHeard(Applied(s.account, e), s.market, e, now))
            && t.account == Applied(s.account, e) && t.market == s.market && t.curve == s.curve && t.bars == s.bars
            && LogGrew(s, t) && t.sink == s.sink + t.log[|s.log|..]
  {
    hide Called, RoutedAll, Applied, Heard, Recording;
    var r := Recording(strategy);
    var applied := s.(account := Applied(s.account, e));
    HeardNothing(s, applied);
    var told := applied;
    var a: seq<Hearing> := [];
    if HasSpecificCallback(e) {
      CallIsHeard(strategy, applied, OnSpecific(e), now);
      told := Called(r, applied, OnSpecific(e), now);
      a := [Hearing(OnSpecific(e), applied.account, applied.market, now)];
      HeardTwice(s, applied, told, [], a);
      assert [] + a == a;
    }
    CallIsHeard(strategy, told, OnAccount(e), now);
    var called := Called(r, told, OnAccount(e), now);
    HeardTwice(s, told, called, a, [Hearing(OnAccount(e), told.account, told.market, now)]);
    RoutedIsHeard(cfg, called, now);
    HeardTwice(s, called, Routed(cfg, called, now), EventHeard(applied.account, s.market, e, now), []);
    assert EventHeard(applied.account, s.market, e, now) + [] == EventHeard(applied.account, s.market, e, now);
  }

  lemma RoutedIsHeard<S>(cfg: Config, s: Sys<Recorder<S>>, now: int)
    ensures var t := Routed(cfg, s, now);
            && Heard(s, t, []) && OnlyRouted(s, t) && LogGrew(s, t)
  {
    var ready := s.(gate := s.gate.(pending := []));
    RoutingTellsNothing(cfg, ready, s.gate.pending, now);
    HeardNothing(s, Routed(cfg, s, now));
    hide RoutedAll, Heard;
  }

  lemma {:induction false} DrainIsHeard<S>(cfg: Config, strategy: Strategy<S>, s: Sys<Recorder<S>>, i: nat, now: int)
    requires i <= |s.sink|
    ensures var t := DrainedFrom(cfg, Recording(strategy), s, i, now);
            t.Some? ==> LogGrew(s, t.value) && Digested(s, t.value, s.sink[i..] + t.value.log[|s.log|..], now) && t.value.sink == []
    decreases MAX_DRAIN_EVENTS - i
  {
    hide Handled, Heard, EventHeard, EventsHeard, AppliedAll, Applied, Recording;
    if i >= |s.sink| {
      DrainEnds(s, i, now);
    } else if i < MAX_DRAIN_EVENTS {
      var e := s.sink[i];
      var u := Handled(cfg, Recording(strategy), s, e, now);
      HandlingIsHeard(cfg, strategy, s, e, now);
      DrainIsHeard(cfg, strategy, u, i + 1, now);
      var t := DrainedFrom(cfg, Recording(strategy), u, i + 1, now);
      if t.Some? { OneMoreDigested(s, u, t.value, i, now); }
    }
  }

  lemma DrainEnds<S>(s: Sys<Recorder<S>>, i: nat, now: int)
    requires i == |s.sink|
    ensures Digested(s, s.(sink := []), s.sink[i..] + s.log[|s.log|..], now)
  {
    assert s.sink[i..] + s.log[|s.log|..] == [];
    HeardNothing(s, s.(sink := []));
    hide Heard;
  }

  /** The first event, and then the rest with what it set off. */
  lemma OneMoreDigested<S>(s: Sys<Recorder<S>>, u: Sys<Recorder<S>>, t: Sys<Recorder<S>>, i: nat, now: int)
    requires i < |s.sink| && LogGrew(s, u) && u.sink == s.sink + u.log[|s.log|..] && LogGrew(u, t)
    requires Heard(s, u, EventHeard(Applied(s.account, s.sink[i]), s.market, s.sink[i], now))
    requires u.account == Applied(s.account, s.sink[i]) && u.market == s.market && u.curve == s.curve && u.bars == s.bars
    requires Digested(u, t, u.sink[i + 1..] + t.log[|u.log|..], now)
    ensures LogGrew(s, t) && Digested(s, t, s.sink[i..] + t.log[|s.log|..], now)
  {
    hide Heard, EventHeard, EventsHeard, AppliedAll, Applied;
    var e, rest := s.sink[i], u.sink[i + 1..] + t.log[|u.log|..];
    assert s.sink[i..] + t.log[|s.log|..] == [e] + rest by {
      assert t.log[|s.log|..] == u.log[|s.log|..] + t.log[|u.log|..];
      assert u.sink[i + 1..] == s.sink[i + 1..] + u.log[|s.log|..];
    }
    OneHeard(s.account, s.market, e, now);
    EventsHeardConcat(s.account, s.market, [e], rest, now);
    AppliedOne(s.account, e);
    AppliedConcat(s.account, [e], rest);
    HeardTwice(s, u, t, EventsHeard(s.account, s.market, [e], now), EventsHeard(u.account, u.market, rest, now));
  }

  lemma RouteAndDrainIsHeard<S>(cfg: Config, strategy: Strategy<S>, s: Sys<Recorder<S>>, now: int)
    requires s.sink == []
    ensures var t := RouteAndDrain(cfg, Recording(strategy), s, now);
            t.Some? ==> LogGrew(s, t.value) && Digested(s, t.value, t.value.log[|s.log|..], now) && t.value.sink == []
  {
    hide RoutedAll, DrainedFrom, Heard, EventsHeard, AppliedAll, Recording;
    var u := Routed(cfg, s, now);
    RoutedIsHeard(cfg, s, now);
    DrainIsHeard(cfg, strategy, u, 0, now);
    var t := RouteAndDrain(cfg, Recording(strategy), s, now);
    if t.Some? {
      var told := u.sink[0..] + t.value.log[|u.log|..];
      assert told == t.value.log[|s.log|..];
      HeardTwice(s, u, t.value, [], EventsHeard(s.account, s.market, told, now));
      assert [] + EventsHeard(s.account, s.market, told, now) == EventsHeard(s.account, s.market, told, now);
    }
  }

  lemma {:induction false} FiringIsHeard<S>(strategy: Strategy<S>, s: Sys<Recorder<S>>, due: seq<int>, now: int)
    ensures var t := FiredAll(Recording(strategy), s, due, now);
            Heard(s, t, TimersHeard(s.account, s.market, due, now)) && t == s.(mind := t.mind, gate := t.gate)
  {
    hide Called, Heard, Recording;
    if due == [] {
      HeardNothing(s, s);
    } else {
      var init, at := due[..|due| - 1], due[|due| - 1];
      FiringIsHeard(strategy, s, init, now);
      var u := FiredAll(Recording(strategy), s, init, now);
      CallIsHeard(strategy, u, OnTimer(at), now);
      HeardTwice(s, u, Called(Recording(strategy), u, OnTimer(at), now), TimersHeard(s.account, s.market, init, now),
                 [Hearing(OnTimer(at), s.account, s.market, now)]);
    }
  }

  lemma TimersAreHeard<S>(strategy: Strategy<S>, s: Sys<Recorder<S>>, now: int)
    ensures var t := TimersFired(Recording(strategy), s, now);
            Heard(s, t, TimersHeard(s.account, s.market, Due(s.gate.timers, now), now)) && t == s.(mind := t.mind, gate := t.gate)
  {
    hide FiredAll, Heard, Due, NotDue, Recording;
    var waiting := s.(gate := s.gate.(timers := NotDue(s.gate.timers, now)));
    HeardNothing(s, waiting);
    FiringIsHeard(strategy, waiting, Due(s.gate.timers, now), now);
    var due := TimersHeard(s.account, s.market, Due(s.gate.timers, now), now);
    HeardTwice(s, waiting, FiredAll(Recording(strategy), waiting, Due(s.gate.timers, now), now), [], due);
    assert [] + due == due;
  }

  // ---------------------------------------------------------------- what becomes of a request

  function SubmitsOf(asked: seq<Action>): nat {
    if asked == [] then 0 else SubmitsOf(asked[..|asked| - 1]) + if asked[|asked| - 1].SubmitOrder? then 1 else 0
  }

  function OpOf(action: Action, id: nat, now: int): seq<Op> {
    match action
    case SubmitOrder(order) => [Submit(id, order, now)]
    case CancelOrder(of) => [Cancel(of, now)]
    case Schedule(_) => []
  }

  /** The operations asked for in one answer; orders are numbered on from `id`. */
  function OpsOf(asked: seq<Action>, id: nat, now: int): seq<Op> {
    if asked == [] then
      []
    else
      var init := asked[..|asked| - 1];
      OpsOf(init, id, now) + OpOf(asked[|asked| - 1], id + SubmitsOf(init), now)
  }

  function TimersOf(asked: seq<Action>): seq<int> {
    if asked == [] then []
    else TimersOf(asked[..|asked| - 1]) + match asked[|asked| - 1] case Schedule(at) => [at] case _ => []
  }

  function SubmitsIn(notes: seq<Note>): nat {
    if notes == [] then 0 else SubmitsIn(notes[..|notes| - 1]) + SubmitsOf(notes[|notes| - 1].asked)
  }

  /** Everything asked for, as operations of the venue, at the time of the callback that asked. */
  function OpsAsked(notes: seq<Note>): seq<Op> {
    if notes == [] then
      []
    else
      var init, last := notes[..|notes| - 1], notes[|notes| - 1];
      OpsAsked(init) + OpsOf(last.asked, SubmitsIn(init), last.heard.now)
  }

  function TimersAsked(notes: seq<Note>): seq<int> {
    if notes == [] then [] else TimersAsked(notes[..|notes| - 1]) + TimersOf(notes[|notes| - 1].asked)
  }

  function TimersTold(notes: seq<Note>): seq<int> {
    if notes == [] then []
    else TimersTold(notes[..|notes| - 1]) + match notes[|notes| - 1].heard.callback case OnTimer(at) => [at] case _ => []
  }

  /** The operations a strategy asked for, among all the venue performed. */
  function Asks(ops: seq<Op>): seq<Op> {
    if ops == [] then [] else Asks(ops[..|ops| - 1]) + if ops[|ops| - 1].Observe? then [] else [ops[|ops| - 1]]
  }

  function AsOps(pending: seq<GateAction>, now: int): seq<Op> {
    if pending == [] then [] else AsOps(pending[..|pending| - 1], now) + [AsOp(pending[|pending| - 1], now)]
  }

  /** The callback by which an event is first heard. */
  predicate TellsFirst(callback: Callback) {
    callback.OnSpecific? || (callback.OnAccount? && !HasSpecificCallback(callback.e) && !callback.e.Resync?)
  }

  /** When an event is first heard, nothing asked for before is still waiting to be routed. */
  ghost predicate AllPrompt(notes: seq<Note>) {
    forall n :: n in notes && TellsFirst(n.heard.callback) ==> n.buffered == []
  }

  /** What was asked has reached the venue or is buffered; timers asked for have fired, wait, or are just falling due. */
  ghost predicate Honoured<S>(s: Sys<Recorder<S>>, now: int, falling: multiset<int>) {
    && Asks(s.ops) + AsOps(s.gate.pending, now) == OpsAsked(s.mind.notes)
    && s.gate.nextId == SubmitsIn(s.mind.notes)
    && multiset(TimersAsked(s.mind.notes)) == multiset(TimersTold(s.mind.notes)) + multiset(s.gate.timers) + falling
    && AllPrompt(s.mind.notes)
  }

  lemma BufferingOne(gate: Gate, action: Action, now: int)
    ensures var more := Buffered(gate, action);
            && AsOps(more.pending, now) == AsOps(gate.pending, now) + OpOf(action, gate.nextId, now)
            && more.nextId == gate.nextId + (if action.SubmitOrder? then 1 else 0)
            && more.timers == gate.timers + match action case Schedule(at) => [at] case _ => []
  {
    if !action.Schedule? {
      var a := if action.SubmitOrder? then Place(gate.nextId, action.order) else Revoke(action.id);
      assert (gate.pending + [a])[..|gate.pending|] == gate.pending;
    } else {
      assert AsOps(gate.pending, now) + [] == AsOps(gate.pending, now);
    }
  }

  lemma {:induction false} BufferingHonours(gate: Gate, asked: seq<Action>, now: int)
    ensures var more := BufferedAll(gate, asked);
            && AsOps(more.pending, now) == AsOps(gate.pending, now) + OpsOf(asked, gate.nextId, now)
            && more.nextId == gate.nextId + SubmitsOf(asked)
            && more.timers == gate.timers + TimersOf(asked)
  {
    hide Buffered, AsOps, OpOf;
    if asked == [] {
      assert gate.timers + [] == gate.timers && AsOps(gate.pending, now) + [] == AsOps(gate.pending, now);
    } else {
      var init, last := asked[..|asked| - 1], asked[|asked| - 1];
      BufferingHonours(gate, init, now);
      BufferingOne(BufferedAll(gate, init), last, now);
      Associates(AsOps(gate.pending, now), OpsOf(init, gate.nextId, now), OpOf(last, gate.nextId + SubmitsOf(init), now));
      Associates(gate.timers, TimersOf(init), match last case Schedule(at) => [at] case _ => []);
    }
  }

  lemma NotedOnce(notes: seq<Note>, n: Note)
    ensures OpsAsked(notes + [n]) == OpsAsked(notes) + OpsOf(n.asked, SubmitsIn(notes), n.heard.now)
    ensures SubmitsIn(notes + [n]) == SubmitsIn(notes) + SubmitsOf(n.asked)
    ensures TimersAsked(notes + [n]) == TimersAsked(notes) + TimersOf(n.asked)
    ensures TimersTold(notes + [n]) == TimersTold(notes) + match n.heard.callback case OnTimer(at) => [at] case _ => []
  {
    assert (notes + [n])[..|notes|] == notes;
  }

  lemma CallIsNoted<S>(strategy: Strategy<S>, s: Sys<Recorder<S>>, callback: Callback, now: int) returns (n: Note)
    ensures var t := Called(Recording(strategy), s, callback, now);
            t.mind.notes == s.mind.notes + [n] && t.gate == BufferedAll(s.gate, n.asked) && t.ops == s.ops
    ensures n.heard.callback == callback && n.heard.now == now && n.buffered == s.gate.pending
  {
    hide BufferedAll;
    n := Called(Recording(strategy), s, callback, now).mind.notes[|s.mind.notes|];
  }

  lemma CallIsHonoured<S>(strategy: Strategy<S>, s: Sys<Recorder<S>>, callback: Callback, now: int, falling: multiset<int>)
    requires Honoured(s, now, falling) && (TellsFirst(callback) ==> s.gate.pending == [])
    requires callback.OnTimer? ==> callback.at in falling
    ensures Honoured(Called(Recording(strategy), s, callback, now), now, if callback.OnTimer? then falling - multiset{callback.at} else falling)
  {
    hide OpsAsked, OpsOf, SubmitsIn, SubmitsOf, TimersAsked, TimersOf, TimersTold, Asks, AsOps, BufferedAll, Called, Recording, TellsFirst;
    var n := CallIsNoted(strategy, s, callback, now);
    BufferingHonours(s.gate, n.asked, now);
    NotedOnce(s.mind.notes, n);
    Associates(Asks(s.ops), AsOps(s.gate.pending, now), OpsOf(n.asked, s.gate.nextId, now));
  }

  lemma {:induction false} RoutingAsks<S>(cfg: Config, s: Sys<S>, actions: seq<GateAction>, now: int)
    ensures Asks(RoutedAll(cfg, s, actions, now).ops) == Asks(s.ops) + AsOps(actions, now)
    ensures RoutedAll(cfg, s, actions, now).gate == s.gate && RoutedAll(cfg, s, actions, now).mind == s.mind
  {
    if actions != [] {
      hide Exec;
      RoutingAsks(cfg, s, actions[..|actions| - 1], now);
      var u := RoutedAll(cfg, s, actions[..|actions| - 1], now);
      assert (u.ops + [AsOp(actions[|actions| - 1], now)])[..|u.ops|] == u.ops;
    }
  }

  /** Once routed, nothing waits, so the time no longer matters. */
  lemma RoutedIsHonoured<S>(cfg: Config, s: Sys<Recorder<S>>, now: int, later: int, falling: multiset<int>)
    requires Honoured(s, now, falling)
    ensures Honoured(Routed(cfg, s, now), later, falling) && Routed(cfg, s, now).gate.pending == []
  {
    var ready := s.(gate := s.gate.(pending := []));
    RoutingAsks(cfg, ready, s.gate.pending, now);
    assert AsOps([], later) == [];
    hide RoutedAll, OpsAsked, SubmitsIn, TimersAsked, TimersTold, Asks, AllPrompt;
  }

  lemma HandlingIsHonoured<S>(cfg: Config, strategy: Strategy<S>, s: Sys<Recorder<S>>, e: AccountEvent, now: int)
    requires Honoured(s, now, multiset{}) && (s.gate.pending == [] || e.Resync?)
    ensures var t := Handled(cfg, Recording(strategy), s, e, now);
            Honoured(t, now, multiset{}) && t.gate.pending == []
  {
    hide OpsAsked, SubmitsIn, TimersAsked, TimersTold, Asks, AsOps, AllPrompt, Called, Routed, Recording, Applied;
    var r := Recording(strategy);
    var applied := s.(account := Applied(s.account, e));
    assert Honoured(applied, now, multiset{});
    var told := applied;
    if HasSpecificCallback(e) {
      CallIsHonoured(strategy, applied, OnSpecific(e), now, multiset{});
      told := Called(r, applied, OnSpecific(e), now);
    }
    CallIsHonoured(strategy, told, OnAccount(e), now, multiset{});
    RoutedIsHonoured(cfg, Called(r, told, OnAccount(e), now), now, now, multiset{});
  }

  lemma {:induction false} DrainIsHonoured<S>(cfg: Config, strategy: Strategy<S>, s: Sys<Recorder<S>>, i: nat, now: int)
    requires Honoured(s, now, multiset{}) && (s.gate.pending == [] || (i < |s.sink| && s.sink[i].Resync?))
    ensures var t := DrainedFrom(cfg, Recording(strategy), s, i, now);
            t.Some? ==> Honoured(t.value, now, multiset{}) && t.value.gate.pending == []
    decreases MAX_DRAIN_EVENTS - i
  {
    hide Honoured, Handled, Recording;
    if i >= |s.sink| {
      SinkIsNoRequest(s, now);
    } else if i < MAX_DRAIN_EVENTS {
      HandlingIsHonoured(cfg, strategy, s, s.sink[i], now);
      DrainIsHonoured(cfg, strategy, Handled(cfg, Recording(strategy), s, s.sink[i], now), i + 1, now);
    }
  }

  lemma SinkIsNoRequest<S>(s: Sys<Recorder<S>>, now: int)
    requires Honoured(s, now, multiset{})
    ensures Honoured(s.(sink := []), now, multiset{})
  {
  }

  lemma RouteAndDrainIsHonoured<S>(cfg: Config, strategy: Strategy<S>, s: Sys<Recorder<S>>, now: int)
    requires Honoured(s, now, multiset{})
    ensures var t := RouteAndDrain(cfg, Recording(strategy), s, now);
            t.Some? ==> Honoured(t.value, now, multiset{}) && t.value.gate.pending == []
  {
    hide Honoured, Routed, DrainedFrom, Recording;
    RoutedIsHonoured(cfg, s, now, now, multiset{});
    DrainIsHonoured(cfg, strategy, Routed(cfg, s, now), 0, now);
  }

  lemma {:induction false} FiringIsHonoured<S>(strategy: Strategy<S>, s: Sys<Recorder<S>>, due: seq<int>, now: int, rest: multiset<int>)
    requires Honoured(s, now, multiset(due) + rest)
    ensures Honoured(FiredAll(Recording(strategy), s, due, now), now, rest)
  {
    hide Honoured, Called, Recording;
    if due != [] {
      var init, at := due[..|due| - 1], due[|due| - 1];
      assert due == init + [at];
      assert multiset(due) + rest == multiset(init) + (multiset{at} + rest);
      FiringIsHonoured(strategy, s, init, now, multiset{at} + rest);
      var u := FiredAll(Recording(strategy), s, init, now);
      CallIsHonoured(strategy, u, OnTimer(at), now, multiset{at} + rest);
      assert multiset{at} + rest - multiset{at} == rest;
    } else {
      assert multiset(due) + rest == rest;
    }
  }

  lemma TimersAreHonoured<S>(strategy: Strategy<S>, s: Sys<Recorder<S>>, now: int)
    requires Honoured(s, now, multiset{})
    ensures Honoured(TimersFired(Recording(strategy), s, now), now, multiset{})
  {
    hide OpsAsked, SubmitsIn, TimersAsked, TimersTold, Asks, AsOps, AllPrompt, FiredAll, Recording, Due, NotDue;
    var waiting := s.(gate := s.gate.(timers := NotDue(s.gate.timers, now)));
    TimersArePartitioned(s.gate.timers, now);
    assert Honoured(waiting, now, multiset(Due(s.gate.timers, now)) + multiset{});
    FiringIsHonoured(strategy, waiting, Due(s.gate.timers, now), now, multiset{});
  }

  // ---------------------------------------------------------------- the market

  function Fed(market: MarketData, event: Event): MarketData {
    match event
    case BarEvent(bar) => Pushed(market, bar)
    case SignalEvent(instrument, channel, value, _) => Signaled(market, instrument, channel, value)
    case ResyncEvent(_, _) => market
  }

  /** All bars and signals of the feed so far. */
  function MarketAfter(instruments: nat, events: seq<Event>): MarketData {
    if events == [] then
      MarketData(seq(instruments, _ => []), map[])
    else
      Fed(MarketAfter(instruments, events[..|events| - 1]), events[|events| - 1])
  }

  /** The bars of one instrument, in the order of the feed. */
  function FeedBars(events: seq<Event>, i: nat): seq<Bar> {
    if events == [] then []
    else FeedBars(events[..|events| - 1], i) + match events[|events| - 1]
                                             case BarEvent(bar) => if bar.instrument == i then [bar] else []
                                             case _ => []
  }

  /** The values of one channel of an instrument, in the order of the feed. */
  function FeedValues(events: seq<Event>, i: nat, c: nat): seq<int> {
    if events == [] then []
    else FeedValues(events[..|events| - 1], i, c) + match events[|events| - 1]
                                                  case SignalEvent(j, d, value, _) => if j == i && d == c then [value] else []
                                                  case _ => []
  }

  function CloseOfLast(bars: seq<Bar>): Option<int> {
    if bars == [] then None else Some(bars[|bars| - 1].close)
  }

  /** The market a strategy sees is the feed so far, and an instrument is marked at its last close. */
  lemma {:induction false} MarketIsTheFeed(instruments: nat, events: seq<Event>)
    ensures var market := MarketAfter(instruments, events);
            && |market.bars| == |MarksOf(market)| == instruments
            && (forall i :: 0 <= i < instruments ==> market.bars[i] == FeedBars(events, i) && MarksOf(market)[i] == CloseOfLast(FeedBars(events, i)))
            && (forall i: nat, c: nat :: (if (i, c) in market.signals then market.signals[(i, c)] else []) == FeedValues(events, i, c))
  {
    if events != [] {
      MarketIsTheFeed(instruments, events[..|events| - 1]);
    }
  }

  // ---------------------------------------------------------------- the transcript of a run

  /** The account as the logged events leave it. */
  function AccountAfter(cfg: Config, cash: int, log: seq<AccountEvent>): Account {
    AppliedAll(NewAccount(|cfg.specs|, cash), log)
  }

  /** Timers asked for and not yet told. */
  function Untold(notes: seq<Note>): multiset<int> {
    multiset(TimersAsked(notes)) - multiset(TimersTold(notes))
  }

  /** The waiting timers whose time has come, all of them, in the order of their times. */
  ghost predicate FallDue(notes: seq<Note>, due: seq<int>, now: int) {
    Sorted(due, SoonerTimer) && forall at :: multiset(due)[at] == if at <= now then Untold(notes)[at] else 0
  }

  ghost predicate StartTold(cfg: Config, cash: int, notes: seq<Note>, log: seq<AccountEvent>) {
    var account, market := AccountAfter(cfg, cash, []), MarketAfter(|cfg.specs|, []);
    Hearings(notes) == [Hearing(OnStart, account, market, 0)] + EventsHeard(account, market, log, 0)
  }

  /** Timers that fall due after the notes so far, then a callback, then the events from there on. */
  ghost predicate Turn(cfg: Config, cash: int, market: MarketData, before: seq<Note>, notes: seq<Note>,
                       log: seq<AccountEvent>, j: nat, callback: seq<Callback>, now: int)
    requires j <= |log|
  {
    var account := AccountAfter(cfg, cash, log[..j]);
    exists due :: FallDue(before, due, now) &&
      Hearings(notes) == TimersHeard(account, market, due, now) + CallbacksHeard(account, market, callback, now) + EventsHeard(account, market, log[j..], now)
  }

  function CallbacksHeard(account: Account, market: MarketData, callbacks: seq<Callback>, now: int): seq<Hearing> {
    if callbacks == [] then [] else [Hearing(callbacks[0], account, market, now)] + CallbacksHeard(account, market, callbacks[1..], now)
  }

  /**
   * What one event of the feed makes the strategy hear. A bar: first what the venue makes of it, the
   * bar itself not yet in view; then, with the bar in view, the timers due, the bar, and what comes of
   * the answers. A signal or a resync: the timers due, the resync's marker, and what comes of them.
   */
  ghost predicate StepTold(cfg: Config, cash: int, init: seq<Event>, event: Event, notes: seq<Note>, p: nat, log: seq<AccountEvent>, j: nat)
    requires p <= |notes| && j <= |log|
  {
    var before, after := MarketAfter(|cfg.specs|, init), MarketAfter(|cfg.specs|, init + [event]);
    match event
    case BarEvent(bar) =>
      exists q, k :: BarTold(cfg, cash, before, after, bar, notes, p, q, log, j, k)
    case ResyncEvent(scope, at) => Turn(cfg, cash, after, notes[..p], notes[p..], log, j, [OnAccount(Resync(scope, at))], at)
    case SignalEvent(_, _, _, at) => Turn(cfg, cash, after, notes[..p], notes[p..], log, j, [], at)
  }

  ghost predicate BarTold(cfg: Config, cash: int, before: MarketData, after: MarketData, bar: Bar,
                          notes: seq<Note>, p: nat, q: nat, log: seq<AccountEvent>, j: nat, k: nat)
  {
    && p <= q <= |notes| && j <= k <= |log|
    && Hearings(notes[p..q]) == EventsHeard(AccountAfter(cfg, cash, log[..j]), before, log[j..k], bar.ts)
    && Turn(cfg, cash, after, notes[..q], notes[q..], log, k, [OnBar(bar)], bar.ts)
  }

  /** The whole transcript, event by event of the feed. */
  ghost predicate Transcript(cfg: Config, cash: int, events: seq<Event>, notes: seq<Note>, log: seq<AccountEvent>)
    decreases |events|, 1
  {
    if events == [] then
      StartTold(cfg, cash, notes, log)
    else
      exists p, j :: ToldUpTo(cfg, cash, events, notes, log, p, j)
  }

  ghost predicate ToldUpTo(cfg: Config, cash: int, events: seq<Event>, notes: seq<Note>, log: seq<AccountEvent>, p: nat, j: nat)
    requires events != []
    decreases |events|, 0
  {
    var init, event := events[..|events| - 1], events[|events| - 1];
    && p <= |notes| && j <= |log|
    && Transcript(cfg, cash, init, notes[..p], log[..j]) && StepTold(cfg, cash, init, event, notes, p, log, j)
  }

  // ---------------------------------------------------------------- every run

  /** Between events: everything is told, applied and routed. */
  ghost predicate AtRest<S>(cfg: Config, cash: int, events: seq<Event>, s: Sys<Recorder<S>>) {
    && s.sink == [] && s.gate.pending == []
    && s.account == AccountAfter(cfg, cash, s.log) && s.market == MarketAfter(|cfg.specs|, events)
    && AllHonoured(s)
  }

  /** Nothing is buffered, so the requests are honoured whatever the time. */
  ghost predicate AllHonoured<S>(s: Sys<Recorder<S>>) {
    && Asks(s.ops) == OpsAsked(s.mind.notes)
    && s.gate.nextId == SubmitsIn(s.mind.notes)
    && multiset(TimersAsked(s.mind.notes)) == multiset(TimersTold(s.mind.notes)) + multiset(s.gate.timers)
    && AllPrompt(s.mind.notes)
  }

  lemma AllHonouredNow<S>(s: Sys<Recorder<S>>, now: int)
    requires s.gate.pending == []
    ensures AllHonoured(s) <==> Honoured(s, now, multiset{})
  {
    hide OpsAsked, SubmitsIn, TimersAsked, TimersTold, Asks, AllPrompt;
  }

  /** The timers due are those waiting whose time has come. */
  lemma DueFallsDue<S>(s: Sys<Recorder<S>>, now: int)
    requires Honoured(s, now, multiset{})
    ensures FallDue(s.mind.notes, Due(s.gate.timers, now), now)
  {
    DueInOrder(s.gate.timers, now);
    TimersArePartitioned(s.gate.timers, now);
    DueByNow(s.gate.timers, now);
    hide TimersAsked, TimersTold, Due, NotDue, Sorted, Asks, OpsAsked, SubmitsIn;
    var due, rest := Due(s.gate.timers, now), NotDue(s.gate.timers, now);
    assert Untold(s.mind.notes) == multiset(s.gate.timers);
    forall at ensures multiset(due)[at] == if at <= now then Untold(s.mind.notes)[at] else 0 {
      assert Untold(s.mind.notes)[at] == multiset(due)[at] + multiset(rest)[at];
      if at <= now { assert at !in rest; } else { assert at !in multiset(due); }
    }
  }

  lemma StartIsTold<S>(cfg: Config, strategy: Strategy<S>, cash: int, mirrored: Option<int>)
    ensures var s := Started(cfg, Recording(strategy), cash, mirrored);
            s.Some? ==>
              && Transcript(cfg, cash, [], s.value.mind.notes, s.value.log) && AtRest(cfg, cash, [], s.value)
              && BarsIn(s.value.ops) == [] && s.value.bars == 0
  {
    hide Called, RouteAndDrain, Heard, EventsHeard, Hearings;
    var blank := Fresh(cfg, Recording(strategy), cash, mirrored);
    FreshIsHonoured(cfg, strategy, cash, mirrored);
    var called := Called(Recording(strategy), blank, OnStart, 0);
    CallIsHeard(strategy, blank, OnStart, 0);
    CallIsHonoured(strategy, blank, OnStart, 0, multiset{});
    RouteAndDrainIsHeard(cfg, strategy, called, 0);
    RouteAndDrainIsHonoured(cfg, strategy, called, 0);
    var s := RouteAndDrain(cfg, Recording(strategy), called, 0);
    if s.Some? {
      assert s.value.log[|called.log|..] == s.value.log;
      var heard := EventsHeard(called.account, called.market, s.value.log, 0);
      HeardTwice(blank, called, s.value, [Hearing(OnStart, blank.account, blank.market, 0)], heard);
      AllHonouredNow(s.value, 0);
      FromTheStart(blank, s.value, [Hearing(OnStart, blank.account, blank.market, 0)] + heard);
    }
  }

  lemma FreshIsHonoured<S>(cfg: Config, strategy: Strategy<S>, cash: int, mirrored: Option<int>)
    ensures var s := Fresh(cfg, Recording(strategy), cash, mirrored);
            && s.mind.notes == [] && s.sink == [] && s.log == [] && s.gate.pending == [] && Honoured(s, 0, multiset{})
            && s.account == AccountAfter(cfg, cash, []) && s.market == MarketAfter(|cfg.specs|, []) && BarsIn(s.ops) == [] && s.bars == 0
  {
  }

  lemma FromTheStart<S>(s: Sys<Recorder<S>>, t: Sys<Recorder<S>>, heard: seq<Hearing>)
    requires Heard(s, t, heard) && s.mind.notes == []
    ensures Hearings(t.mind.notes) == heard
  {
    assert t.mind.notes[0..] == t.mind.notes;
    hide Hearings;
  }

  /** The same notes, read from a later state. */
  lemma HeardSince<S>(s: Sys<Recorder<S>>, t: Sys<Recorder<S>>, heard: seq<Hearing>)
    requires Heard(s, t, heard)
    ensures |s.mind.notes| <= |t.mind.notes| && t.mind.notes[..|s.mind.notes|] == s.mind.notes
    ensures Hearings(t.mind.notes[|s.mind.notes|..]) == heard
  {
    hide Hearings;
  }

  // ---------------------------------------------------------------- a turn

  /** Timers, perhaps a callback, then routing and draining. */
  lemma TurnIsTold<S>(cfg: Config, strategy: Strategy<S>, cash: int, s: Sys<Recorder<S>>, timed: Sys<Recorder<S>>, called: Sys<Recorder<S>>,
                      callback: seq<Callback>, now: int, t: Sys<Recorder<S>>)
    requires s.sink == [] && s.gate.pending == [] && AllHonoured(s) && s.account == AccountAfter(cfg, cash, s.log)
    requires timed == TimersFired(Recording(strategy), s, now)
    requires Heard(timed, called, CallbacksHeard(s.account, s.market, callback, now)) && called.log == timed.log && called.ops == timed.ops
    requires called.account == s.account && called.market == s.market && LogGrew(called, t)
    requires Digested(called, t, t.log[|called.log|..], now)
    ensures LogGrew(s, t) && |s.mind.notes| <= |t.mind.notes| && t.mind.notes[..|s.mind.notes|] == s.mind.notes
    ensures Turn(cfg, cash, s.market, s.mind.notes, t.mind.notes[|s.mind.notes|..], t.log, |s.log|, callback, now)
    ensures t.account == AccountAfter(cfg, cash, t.log) && t.market == s.market && t.bars == called.bars
  {
    hide Heard, EventsHeard, CallbacksHeard, TimersHeard, AppliedAll, TimersFired, FallDue, Recording, Due, NewAccount;
    var due := Due(s.gate.timers, now);
    AllHonouredNow(s, now);
    DueFallsDue(s, now);
    TimersAreHeard(strategy, s, now);
    var a, b, c := TimersHeard(s.account, s.market, due, now), CallbacksHeard(s.account, s.market, callback, now),
                   EventsHeard(s.account, s.market, t.log[|s.log|..], now);
    HeardTwice(s, timed, called, a, b);
    HeardTwice(s, called, t, a + b, c);
    HeardSince(s, t, a + b + c);
    assert t.log == s.log + t.log[|s.log|..];
    AppliedConcat(NewAccount(|cfg.specs|, cash), s.log, t.log[|s.log|..]);
  }

  lemma MarketStep(instruments: nat, init: seq<Event>, event: Event)
    ensures MarketAfter(instruments, init + [event]) == Fed(MarketAfter(instruments, init), event)
  {
    hide Fed;
    assert (init + [event])[..|init|] == init;
  }

  /** From s to t the step was told, and everything is settled again. */
  ghost predicate Stepping<S>(cfg: Config, cash: int, init: seq<Event>, event: Event, s: Sys<Recorder<S>>, t: Sys<Recorder<S>>) {
    && |s.mind.notes| <= |t.mind.notes| && t.mind.notes[..|s.mind.notes|] == s.mind.notes
    && |s.log| <= |t.log| && t.log[..|s.log|] == s.log
    && StepTold(cfg, cash, init, event, t.mind.notes, |s.mind.notes|, t.log, |s.log|)
    && AtRest(cfg, cash, init + [event], t)
    && BarsIn(t.ops) == BarsIn(s.ops) + (if event.BarEvent? then [Observe(event.bar, event.bar.ts)] else [])
    && t.bars == s.bars + if event.BarEvent? then 1 else 0
  }

  /** The bar's own events, before the bar is in view. */
  lemma ObservedIsHeard<S>(cfg: Config, strategy: Strategy<S>, s: Sys<Recorder<S>>, bar: Bar)
    requires s.sink == [] && s.gate.pending == [] && AllHonoured(s)
    ensures var t := Drained(cfg, Recording(strategy), Executed(cfg, s, Observe(bar, bar.ts)), bar.ts);
            t.Some? ==>
              && |s.log| <= |t.value.log| && t.value.log[..|s.log|] == s.log
              && Heard(s, t.value, EventsHeard(s.account, s.market, t.value.log[|s.log|..], bar.ts))
              && t.value.account == AppliedAll(s.account, t.value.log[|s.log|..]) && t.value.market == s.market
              && t.value.sink == [] && t.value.gate.pending == [] && AllHonoured(t.value)
              && BarsIn(t.value.ops) == BarsIn(s.ops) + [Observe(bar, bar.ts)] && t.value.bars == s.bars
  {
    hide DrainedFrom, Heard, EventsHeard, AppliedAll, Recording, Exec, Honoured, AllHonoured, BarsIn;
    var o := Executed(cfg, s, Observe(bar, bar.ts));
    var t := Drained(cfg, Recording(strategy), o, bar.ts);
    BarsInPush(s.ops, Observe(bar, bar.ts));
    ObserveIsHonoured(cfg, s, bar);
    AllHonouredNow(o, bar.ts);
    DrainIsHeard(cfg, strategy, o, 0, bar.ts);
    DrainIsHonoured(cfg, strategy, o, 0, bar.ts);
    if t.Some? {
      AllHonouredNow(t.value, bar.ts);
      assert o.sink[0..] + t.value.log[|o.log|..] == t.value.log[|s.log|..];
      HeardNothing(s, o);
      var heard := EventsHeard(s.account, s.market, t.value.log[|s.log|..], bar.ts);
      HeardTwice(s, o, t.value, [], heard);
      assert [] + heard == heard;
    }
  }

  lemma ObserveIsHonoured<S>(cfg: Config, s: Sys<Recorder<S>>, bar: Bar)
    requires AllHonoured(s)
    ensures AllHonoured(Executed(cfg, s, Observe(bar, bar.ts)))
  {
    hide Exec, OpsAsked, TimersAsked, TimersTold, SubmitsIn, AllPrompt;
    assert (s.ops + [Observe(bar, bar.ts)])[..|s.ops|] == s.ops;
  }

  lemma HonouredMarket<S>(s: Sys<Recorder<S>>, t: Sys<Recorder<S>>)
    requires AllHonoured(s) && t.ops == s.ops && t.gate == s.gate && t.mind == s.mind
    ensures AllHonoured(t)
  {
    hide OpsAsked, TimersAsked, TimersTold, SubmitsIn, AllPrompt, Asks;
  }

  /** The turn of a bar, once what the venue made of it has been told. */
  lemma DecidingIsTold<S>(cfg: Config, strategy: Strategy<S>, cash: int, f: Sys<Recorder<S>>, bar: Bar)
    requires f.sink == [] && f.gate.pending == [] && AllHonoured(f) && f.account == AccountAfter(cfg, cash, f.log)
    ensures var t := Decided(cfg, Recording(strategy), f, bar);
            t.Some? ==>
              && LogGrew(f, t.value) && |f.mind.notes| <= |t.value.mind.notes| && t.value.mind.notes[..|f.mind.notes|] == f.mind.notes
              && Turn(cfg, cash, Pushed(f.market, bar), f.mind.notes, t.value.mind.notes[|f.mind.notes|..], t.value.log, |f.log|, [OnBar(bar)], bar.ts)
              && t.value.account == AccountAfter(cfg, cash, t.value.log) && t.value.market == Pushed(f.market, bar)
              && t.value.bars == f.bars + 1 && t.value.sink == [] && t.value.gate.pending == [] && AllHonoured(t.value)
  {
    hide Heard, EventsHeard, Recording, Honoured, AllHonoured, Turn, AccountAfter, TimersFired, Called, RouteAndDrain, Pushed, Equity, MarksOf;
    var r := Recording(strategy);
    var s := f.(market := Pushed(f.market, bar));
    HonouredMarket(f, s);
    var timed := TimersFired(r, s, bar.ts);
    var called := Called(r, timed, OnBar(bar), bar.ts);
    var counted := called.(bars := called.bars + 1);
    AllHonouredNow(s, bar.ts);
    TimersAreHonoured(strategy, s, bar.ts);
    CallIsHonoured(strategy, timed, OnBar(bar), bar.ts, multiset{});
    HonouredAlike(called, counted, bar.ts);
    RouteAndDrainIsHonoured(cfg, strategy, counted, bar.ts);
    TimersAreHeard(strategy, s, bar.ts);
    CallIsHeard(strategy, timed, OnBar(bar), bar.ts);
    HeardAlike(timed, called, counted, [Hearing(OnBar(bar), s.account, s.market, bar.ts)]);
    OneCallback(s.account, s.market, OnBar(bar), bar.ts);
    RouteAndDrainIsHeard(cfg, strategy, counted, bar.ts);
    var done := RouteAndDrain(cfg, r, counted, bar.ts);
    if done.Some? {
      AllHonouredNow(done.value, bar.ts);
      TurnIsTold(cfg, strategy, cash, s, timed, counted, [OnBar(bar)], bar.ts, done.value);
      HonouredMarket(done.value, Sampled(done.value, bar.ts));
    }
  }

  lemma HonouredAlike<S>(s: Sys<Recorder<S>>, t: Sys<Recorder<S>>, now: int)
    requires Honoured(s, now, multiset{}) && t.ops == s.ops && t.gate == s.gate && t.mind == s.mind
    ensures Honoured(t, now, multiset{})
  {
    hide OpsAsked, TimersAsked, TimersTold, SubmitsIn, AllPrompt, Asks, AsOps;
  }

  lemma HeardAlike<S>(s: Sys<Recorder<S>>, t: Sys<Recorder<S>>, u: Sys<Recorder<S>>, heard: seq<Hearing>)
    requires Heard(s, t, heard) && u.mind == t.mind
    ensures Heard(s, u, heard)
  {
    hide Hearings;
  }

  lemma OneCallback(account: Account, market: MarketData, callback: Callback, now: int)
    ensures CallbacksHeard(account, market, [callback], now) == [Hearing(callback, account, market, now)]
    ensures CallbacksHeard(account, market, [], now) == []
  {
    assert [callback][1..] == [];
  }

  lemma BarIsTold<S>(cfg: Config, strategy: Strategy<S>, cash: int, init: seq<Event>, s: Sys<Recorder<S>>, bar: Bar)
    requires AtRest(cfg, cash, init, s)
    ensures var t := Stepped(cfg, Recording(strategy), s, BarEvent(bar));
            t.Some? ==> Stepping(cfg, cash, init, BarEvent(bar), s, t.value)
  {
    hide Heard, Hearings, EventsHeard, Recording, AllHonoured, Turn, AppliedAll, NewAccount, Decided, DrainedFrom, Executed, MarketAfter, Pushed;
    ObservedIsHeard(cfg, strategy, s, bar);
    var f := Drained(cfg, Recording(strategy), Executed(cfg, s, Observe(bar, bar.ts)), bar.ts);
    if f.Some? {
      assert f.value.log == s.log + f.value.log[|s.log|..];
      AppliedConcat(NewAccount(|cfg.specs|, cash), s.log, f.value.log[|s.log|..]);
      DecidingIsTold(cfg, strategy, cash, f.value, bar);
      MarketStep(|cfg.specs|, init, BarEvent(bar));
      var t := Decided(cfg, Recording(strategy), f.value, bar);
      if t.Some? { BarIsBothParts(cfg, cash, init, bar, s, f.value, t.value); }
    }
  }

  lemma BarIsBothParts<S>(cfg: Config, cash: int, init: seq<Event>, bar: Bar, s: Sys<Recorder<S>>, f: Sys<Recorder<S>>, t: Sys<Recorder<S>>)
    requires s.account == AccountAfter(cfg, cash, s.log) && s.market == MarketAfter(|cfg.specs|, init)
    requires |s.log| <= |f.log| && f.log[..|s.log|] == s.log
    requires Heard(s, f, EventsHeard(s.account, s.market, f.log[|s.log|..], bar.ts)) && LogGrew(f, t)
    requires |f.mind.notes| <= |t.mind.notes| && t.mind.notes[..|f.mind.notes|] == f.mind.notes
    requires Turn(cfg, cash, MarketAfter(|cfg.specs|, init + [BarEvent(bar)]), f.mind.notes, t.mind.notes[|f.mind.notes|..], t.log, |f.log|, [OnBar(bar)], bar.ts)
    ensures |s.mind.notes| <= |t.mind.notes| && t.mind.notes[..|s.mind.notes|] == s.mind.notes
    ensures |s.log| <= |t.log| && t.log[..|s.log|] == s.log
    ensures StepTold(cfg, cash, init, BarEvent(bar), t.mind.notes, |s.mind.notes|, t.log, |s.log|)
  {
    hide Hearings, EventsHeard, AccountAfter, Turn, MarketAfter, BarsIn;
    assert t.mind.notes[|s.mind.notes|..|f.mind.notes|] == f.mind.notes[|s.mind.notes|..];
    assert t.log[|s.log|..|f.log|] == f.log[|s.log|..] && t.log[..|s.log|] == f.log[..|s.log|] && t.log[..|f.log|] == f.log;
    HeardSince(s, f, EventsHeard(s.account, s.market, f.log[|s.log|..], bar.ts));
    assert t.mind.notes[..|s.mind.notes|] == f.mind.notes[..|s.mind.notes|];
    assert BarTold(cfg, cash, MarketAfter(|cfg.specs|, init), MarketAfter(|cfg.specs|, init + [BarEvent(bar)]), bar,
                   t.mind.notes, |s.mind.notes|, |f.mind.notes|, t.log, |s.log|, |f.log|);
  }

  lemma SignalIsTold<S>(cfg: Config, strategy: Strategy<S>, cash: int, init: seq<Event>, s: Sys<Recorder<S>>, event: Event)
    requires AtRest(cfg, cash, init, s) && event.SignalEvent?
    ensures var t := Stepped(cfg, Recording(strategy), s, event);
            t.Some? ==> Stepping(cfg, cash, init, event, s, t.value)
  {
    hide Heard, EventsHeard, Recording, Honoured, AllHonoured, Turn, AccountAfter, TimersFired, RouteAndDrain, MarketAfter, Signaled;
    var now := event.at;
    MarketStep(|cfg.specs|, init, event);
    EmptyDrain(cfg, strategy, s, now);
    var u := s.(market := Signaled(s.market, event.instrument, event.channel, event.value));
    HonouredMarket(s, u);
    var timed := TimersFired(Recording(strategy), u, now);
    AllHonouredNow(u, now);
    TimersAreHonoured(strategy, u, now);
    RouteAndDrainIsHonoured(cfg, strategy, timed, now);
    TimersAreHeard(strategy, u, now);
    HeardNothing(timed, timed);
    NoCallback(s.account, u.market, now);
    RouteAndDrainIsHeard(cfg, strategy, timed, now);
    var t := RouteAndDrain(cfg, Recording(strategy), timed, now);
    if t.Some? {
      AllHonouredNow(t.value, now);
      TurnIsTold(cfg, strategy, cash, u, timed, timed, [], now, t.value);
    }
  }

  lemma NoCallback(account: Account, market: MarketData, now: int)
    ensures CallbacksHeard(account, market, [], now) == []
  {
  }

  /** Draining nothing changes nothing. */
  lemma EmptyDrain<S>(cfg: Config, strategy: Strategy<S>, s: Sys<Recorder<S>>, now: int)
    requires s.sink == []
    ensures Drained(cfg, Recording(strategy), s, now) == Some(s)
  {
  }

  lemma ResyncIsTold<S>(cfg: Config, strategy: Strategy<S>, cash: int, init: seq<Event>, s: Sys<Recorder<S>>, event: Event)
    requires AtRest(cfg, cash, init, s) && event.ResyncEvent?
    ensures var t := Stepped(cfg, Recording(strategy), s, event);
            t.Some? ==> Stepping(cfg, cash, init, event, s, t.value)
  {
    hide Heard, EventsHeard, Recording, Honoured, AllHonoured, Turn, AppliedAll, NewAccount, TimersFired, DrainedFrom, MarketAfter;
    var now, marker := event.at, Resync(event.scope, event.at);
    MarketStep(|cfg.specs|, init, event);
    EmptyDrain(cfg, strategy, s, now);
    var queued := s.(sink := s.sink + [marker]);
    HonouredMarket(s, queued);
    var timed := TimersFired(Recording(strategy), queued, now);
    AllHonouredNow(queued, now);
    TimersAreHonoured(strategy, queued, now);
    TimersAreHeard(strategy, queued, now);
    assert timed.sink == [marker];
    DrainIsHonoured(cfg, strategy, timed, 0, now);
    DrainIsHeard(cfg, strategy, timed, 0, now);
    var t := DrainedFrom(cfg, Recording(strategy), timed, 0, now);
    if t.Some? {
      AllHonouredNow(t.value, now);
      ResyncTurn(cfg, strategy, cash, s, timed, marker, now, t.value);
    }
  }

  lemma ResyncTurn<S>(cfg: Config, strategy: Strategy<S>, cash: int, s: Sys<Recorder<S>>, timed: Sys<Recorder<S>>, marker: AccountEvent, now: int, t: Sys<Recorder<S>>)
    requires s.sink == [] && s.gate.pending == [] && AllHonoured(s) && s.account == AccountAfter(cfg, cash, s.log) && marker.Resync?
    requires timed == TimersFired(Recording(strategy), s.(sink := [marker]), now) && timed.sink == [marker]
    requires LogGrew(timed, t) && Digested(timed, t, [marker] + t.log[|timed.log|..], now)
    ensures LogGrew(s, t) && |s.mind.notes| <= |t.mind.notes| && t.mind.notes[..|s.mind.notes|] == s.mind.notes
    ensures Turn(cfg, cash, s.market, s.mind.notes, t.mind.notes[|s.mind.notes|..], t.log, |s.log|, [OnAccount(marker)], now)
    ensures t.account == AccountAfter(cfg, cash, t.log) && t.market == s.market && t.bars == s.bars
  {
    hide Heard, EventsHeard, EventHeard, CallbacksHeard, TimersHeard, AppliedAll, TimersFired, FallDue, Recording, Due, NewAccount;
    var queued := s.(sink := [marker]);
    var due := Due(s.gate.timers, now);
    AllHonouredNow(s, now);
    DueFallsDue(s, now);
    TimersAreHeard(strategy, queued, now);
    HeardNothing(s, queued);
    var more := t.log[|s.log|..];
    MarkerIsHeard(s.account, s.market, marker, more, now);
    var a, b, c := TimersHeard(s.account, s.market, due, now), CallbacksHeard(s.account, s.market, [OnAccount(marker)], now),
                   EventsHeard(s.account, s.market, more, now);
    HeardTwice(s, queued, timed, [], a);
    assert [] + a == a;
    HeardTwice(s, timed, t, a, b + c);
    Associates(a, b, c);
    HeardSince(s, t, a + b + c);
    assert t.log == s.log + more;
    AppliedConcat(NewAccount(|cfg.specs|, cash), s.log, more);
  }

  /** A resync's marker changes no account and has no callback of its own. */
  lemma MarkerIsHeard(account: Account, market: MarketData, marker: AccountEvent, more: seq<AccountEvent>, now: int)
    requires marker.Resync?
    ensures EventsHeard(account, market, [marker] + more, now)
            == CallbacksHeard(account, market, [OnAccount(marker)], now) + EventsHeard(account, market, more, now)
    ensures AppliedAll(account, [marker] + more) == AppliedAll(account, more)
  {
    hide EventsHeard, AppliedAll;
    OneHeard(account, market, marker, now);
    OneCallback(account, market, OnAccount(marker), now);
    AppliedOne(account, marker);
    AppliedConcat(account, [marker], more);
    EventsHeardConcat(account, market, [marker], more, now);
  }

  lemma StepIsTold<S>(cfg: Config, strategy: Strategy<S>, cash: int, init: seq<Event>, s: Sys<Recorder<S>>, event: Event)
    requires AtRest(cfg, cash, init, s)
    ensures var t := Stepped(cfg, Recording(strategy), s, event);
            t.Some? ==> Stepping(cfg, cash, init, event, s, t.value)
  {
    hide AtRest, Stepped, Stepping, Recording;
    match event
    case BarEvent(bar) => BarIsTold(cfg, strategy, cash, init, s, bar);
    case SignalEvent(_, _, _, _) => SignalIsTold(cfg, strategy, cash, init, s, event);
    case ResyncEvent(_, _) => ResyncIsTold(cfg, strategy, cash, init, s, event);
  }

  /** The bars of the feed, as shown to the venue. */
  function BarsShown(events: seq<Event>): seq<Op> {
    if events == [] then []
    else BarsShown(events[..|events| - 1]) + match events[|events| - 1] case BarEvent(bar) => [Observe(bar, bar.ts)] case _ => []
  }

  /** Over every run: the transcript up to any point is complete, and nothing asked for was lost. */
  lemma {:induction false} EveryRunIsTold<S>(cfg: Config, strategy: Strategy<S>, cash: int, mirrored: Option<int>, events: seq<Event>)
    ensures var s := Ran(cfg, Recording(strategy), cash, mirrored, events);
            s.Some? ==>
              && Transcript(cfg, cash, events, s.value.mind.notes, s.value.log) && AtRest(cfg, cash, events, s.value)
              && BarsIn(s.value.ops) == BarsShown(events) && s.value.bars == |BarsShown(events)|
  {
    hide AtRest, Stepped, Started, Recording, StepTold, StartTold, BarsIn;
    if events == [] {
      StartIsTold(cfg, strategy, cash, mirrored);
    } else {
      var init, event := events[..|events| - 1], events[|events| - 1];
      assert events == init + [event];
      EveryRunIsTold(cfg, strategy, cash, mirrored, init);
      var s := Ran(cfg, Recording(strategy), cash, mirrored, init);
      if s.Some? {
        StepIsTold(cfg, strategy, cash, init, s.value, event);
        var t := Stepped(cfg, Recording(strategy), s.value, event);
        if t.Some? {
          assert ToldUpTo(cfg, cash, events, t.value.mind.notes, t.value.log, |s.value.mind.notes|, |s.value.log|);
        }
      }
    }
  }

  /** The whole run: its transcript, and then the last timers, the stop, and what comes of them. */
  ghost predicate FullTranscript(cfg: Config, cash: int, events: seq<Event>, notes: seq<Note>, log: seq<AccountEvent>) {
    exists p, j :: StoppedAt(cfg, cash, events, notes, log, p, j)
  }

  ghost predicate StoppedAt(cfg: Config, cash: int, events: seq<Event>, notes: seq<Note>, log: seq<AccountEvent>, p: nat, j: nat) {
    && p <= |notes| && j <= |log| && Transcript(cfg, cash, events, notes[..p], log[..j])
    && Turn(cfg, cash, MarketAfter(|cfg.specs|, events), notes[..p], notes[p..], log, j, [OnStop], if events == [] then 0 else events[|events| - 1].Ts())
  }

  /**
   * Every completed run, of any strategy: the start, each event the venue emitted by its own callback
   * and the common one with the account it has just been applied to, the due timers and the bar once a
   * bar, the stop last; and everything asked for in any of these reached the venue, in order.
   */
  lemma FinishedRunsAreTold<S>(cfg: Config, strategy: Strategy<S>, cash: int, mirrored: Option<int>, events: seq<Event>)
    ensures var s := Finished(cfg, Recording(strategy), cash, mirrored, events);
            s.Some? ==>
              && FullTranscript(cfg, cash, events, s.value.mind.notes, s.value.log)
              && Asks(s.value.ops) == OpsAsked(s.value.mind.notes) && BarsIn(s.value.ops) == BarsShown(events)
              && s.value.bars == |BarsShown(events)| && Untold(s.value.mind.notes) == multiset(s.value.gate.timers)
              && AllPrompt(s.value.mind.notes)
  {
    hide Transcript, Ran, Stopped, Recording, Asks, OpsAsked, TimersAsked, TimersTold, AllPrompt, BarsIn;
    EveryRunIsTold(cfg, strategy, cash, mirrored, events);
    var s := Ran(cfg, Recording(strategy), cash, mirrored, events);
    var now := if events == [] then 0 else events[|events| - 1].Ts();
    if s.Some? {
      StopIsTold(cfg, strategy, cash, events, s.value, now);
      var t := Stopped(cfg, Recording(strategy), s.value, now);
      if t.Some? {
        assert StoppedAt(cfg, cash, events, t.value.mind.notes, t.value.log, |s.value.mind.notes|, |s.value.log|);
      }
    }
  }

  lemma StopIsTold<S>(cfg: Config, strategy: Strategy<S>, cash: int, events: seq<Event>, s: Sys<Recorder<S>>, now: int)
    requires AtRest(cfg, cash, events, s)
    ensures var t := Stopped(cfg, Recording(strategy), s, now);
            t.Some? ==>
              && LogGrew(s, t.value) && |s.mind.notes| <= |t.value.mind.notes| && t.value.mind.notes[..|s.mind.notes|] == s.mind.notes
              && Turn(cfg, cash, s.market, s.mind.notes, t.value.mind.notes[|s.mind.notes|..], t.value.log, |s.log|, [OnStop], now)
              && AllHonoured(t.value) && t.value.bars == s.bars
  {
    hide Heard, EventsHeard, Recording, Honoured, AllHonoured, Turn, AccountAfter, TimersFired, Called, RouteAndDrain, MarketAfter;
    var r := Recording(strategy);
    var timed := TimersFired(r, s, now);
    var called := Called(r, timed, OnStop, now);
    AllHonouredNow(s, now);
    TimersAreHonoured(strategy, s, now);
    CallIsHonoured(strategy, timed, OnStop, now, multiset{});
    RouteAndDrainIsHonoured(cfg, strategy, called, now);
    TimersAreHeard(strategy, s, now);
    CallIsHeard(strategy, timed, OnStop, now);
    OneCallback(s.account, s.market, OnStop, now);
    RouteAndDrainIsHeard(cfg, strategy, called, now);
    var t := RouteAndDrain(cfg, r, called, now);
    if t.Some? {
      AllHonouredNow(t.value, now);
      TurnIsTold(cfg, strategy, cash, s, timed, called, [OnStop], now, t.value);
    }
  }

  // ---------------------------------------------------------------- the recorder changes nothing

  /** The system without the notes. */
  function Bare<S>(s: Sys<Recorder<S>>): Sys<S> {
    Sys(s.venue, s.account, s.gate, s.market, s.mind.mind, s.sink, s.curve, s.bars, s.ops, s.log)
  }

  function BareOf<S>(s: Option<Sys<Recorder<S>>>): Option<Sys<S>> {
    match s
    case None => None
    case Some(v) => Some(Bare(v))
  }

  lemma CallIsBare<S>(strategy: Strategy<S>, s: Sys<Recorder<S>>, callback: Callback, now: int)
    ensures Bare(Called(Recording(strategy), s, callback, now)) == Called(strategy, Bare(s), callback, now)
  {
    hide BufferedAll;
  }

  lemma {:induction false} RoutingIsBare<S>(cfg: Config, s: Sys<Recorder<S>>, actions: seq<GateAction>, now: int)
    ensures Bare(RoutedAll(cfg, s, actions, now)) == RoutedAll(cfg, Bare(s), actions, now)
  {
    hide Exec;
    if actions != [] { RoutingIsBare(cfg, s, actions[..|actions| - 1], now); }
  }

  lemma RouteIsBare<S>(cfg: Config, s: Sys<Recorder<S>>, now: int)
    ensures Bare(Routed(cfg, s, now)) == Routed(cfg, Bare(s), now)
  {
    hide RoutedAll;
    RoutingIsBare(cfg, s.(gate := s.gate.(pending := [])), s.gate.pending, now);
  }

  lemma HandlingIsBare<S>(cfg: Config, strategy: Strategy<S>, s: Sys<Recorder<S>>, e: AccountEvent, now: int)
    ensures Bare(Handled(cfg, Recording(strategy), s, e, now)) == Handled(cfg, strategy, Bare(s), e, now)
  {
    hide Called, Routed, Recording, Applied;
    var applied := s.(account := Applied(s.account, e));
    CallIsBare(strategy, applied, OnSpecific(e), now);
    var told := if HasSpecificCallback(e) then Called(Recording(strategy), applied, OnSpecific(e), now) else applied;
    CallIsBare(strategy, told, OnAccount(e), now);
    RouteIsBare(cfg, Called(Recording(strategy), told, OnAccount(e), now), now);
  }

  lemma {:induction false} DrainIsBare<S>(cfg: Config, strategy: Strategy<S>, s: Sys<Recorder<S>>, i: nat, now: int)
    ensures BareOf(DrainedFrom(cfg, Recording(strategy), s, i, now)) == DrainedFrom(cfg, strategy, Bare(s), i, now)
    decreases MAX_DRAIN_EVENTS - i
  {
    hide Handled, Recording;
    if i < |s.sink| && i < MAX_DRAIN_EVENTS {
      HandlingIsBare(cfg, strategy, s, s.sink[i], now);
      DrainIsBare(cfg, strategy, Handled(cfg, Recording(strategy), s, s.sink[i], now), i + 1, now);
    }
  }

  lemma {:induction false} FiringIsBare<S>(strategy: Strategy<S>, s: Sys<Recorder<S>>, due: seq<int>, now: int)
    ensures Bare(FiredAll(Recording(strategy), s, due, now)) == FiredAll(strategy, Bare(s), due, now)
  {
    hide Called, Recording;
    if due != [] {
      FiringIsBare(strategy, s, due[..|due| - 1], now);
      CallIsBare(strategy, FiredAll(Recording(strategy), s, due[..|due| - 1], now), OnTimer(due[|due| - 1]), now);
    }
  }

  lemma TimersAreBare<S>(strategy: Strategy<S>, s: Sys<Recorder<S>>, now: int)
    ensures Bare(TimersFired(Recording(strategy), s, now)) == TimersFired(strategy, Bare(s), now)
  {
    hide FiredAll, Recording, Due, NotDue;
    FiringIsBare(strategy, s.(gate := s.gate.(timers := NotDue(s.gate.timers, now))), Due(s.gate.timers, now), now);
  }

  lemma RouteAndDrainIsBare<S>(cfg: Config, strategy: Strategy<S>, s: Sys<Recorder<S>>, now: int)
    ensures BareOf(RouteAndDrain(cfg, Recording(strategy), s, now)) == RouteAndDrain(cfg, strategy, Bare(s), now)
  {
    hide Routed, DrainedFrom, Recording;
    RouteIsBare(cfg, s, now);
    DrainIsBare(cfg, strategy, Routed(cfg, s, now), 0, now);
  }

  lemma DecidingIsBare<S>(cfg: Config, strategy: Strategy<S>, s: Sys<Recorder<S>>, bar: Bar)
    ensures BareOf(Decided(cfg, Recording(strategy), s, bar)) == Decided(cfg, strategy, Bare(s), bar)
  {
    hide RouteAndDrain, TimersFired, Called, Recording, Pushed, Equity, MarksOf;
    var p := s.(market := Pushed(s.market, bar));
    TimersAreBare(strategy, p, bar.ts);
    var timed := TimersFired(Recording(strategy), p, bar.ts);
    CallIsBare(strategy, timed, OnBar(bar), bar.ts);
    var called := Called(Recording(strategy), timed, OnBar(bar), bar.ts);
    RouteAndDrainIsBare(cfg, strategy, called.(bars := called.bars + 1), bar.ts);
  }

  lemma StepIsBare<S>(cfg: Config, strategy: Strategy<S>, s: Sys<Recorder<S>>, event: Event)
    ensures BareOf(Stepped(cfg, Recording(strategy), s, event)) == Stepped(cfg, strategy, Bare(s), event)
  {
    hide DrainedFrom, Decided, RouteAndDrain, TimersFired, Recording, Signaled, Exec;
    var now := event.Ts();
    match event
    case BarEvent(bar) =>
      var o := Executed(cfg, s, Observe(bar, now));
      DrainIsBare(cfg, strategy, o, 0, now);
      var f := Drained(cfg, Recording(strategy), o, now);
      if f.Some? { DecidingIsBare(cfg, strategy, f.value, bar); }
    case ResyncEvent(scope, at) =>
      DrainIsBare(cfg, strategy, s, 0, now);
      var q := Drained(cfg, Recording(strategy), s, now);
      if q.Some? {
        var queued := q.value.(sink := q.value.sink + [Resync(scope, at)]);
        TimersAreBare(strategy, queued, now);
        DrainIsBare(cfg, strategy, TimersFired(Recording(strategy), queued, now), 0, now);
      }
    case SignalEvent(instrument, channel, value, _) =>
      DrainIsBare(cfg, strategy, s, 0, now);
      var q := Drained(cfg, Recording(strategy), s, now);
      if q.Some? {
        var seen := q.value.(market := Signaled(q.value.market, instrument, channel, value));
        TimersAreBare(strategy, seen, now);
        RouteAndDrainIsBare(cfg, strategy, TimersFired(Recording(strategy), seen, now), now);
      }
  }

  lemma {:induction false} RunIsBare<S>(cfg: Config, strategy: Strategy<S>, cash: int, mirrored: Option<int>, events: seq<Event>)
    ensures BareOf(Ran(cfg, Recording(strategy), cash, mirrored, events)) == Ran(cfg, strategy, cash, mirrored, events)
  {
    hide Stepped, Called, RouteAndDrain;
    if events == [] {
      var blank := Fresh(cfg, Recording(strategy), cash, mirrored);
      assert Bare(blank) == Fresh(cfg, strategy, cash, mirrored);
      CallIsBare(strategy, blank, OnStart, 0);
      RouteAndDrainIsBare(cfg, strategy, Called(Recording(strategy), blank, OnStart, 0), 0);
    } else {
      RunIsBare(cfg, strategy, cash, mirrored, events[..|events| - 1]);
      var s := Ran(cfg, Recording(strategy), cash, mirrored, events[..|events| - 1]);
      if s.Some? { StepIsBare(cfg, strategy, s.value, events[|events| - 1]); }
    }
  }

  /** Recorded or not, a strategy's run is the same. */
  lemma RecordingChangesNothing<S>(cfg: Config, strategy: Strategy<S>, cash: int, mirrored: Option<int>, events: seq<Event>)
    ensures BareOf(Finished(cfg, Recording(strategy), cash, mirrored, events)) == Finished(cfg, strategy, cash, mirrored, events)
  {
    hide Ran, TimersFired, Called, RouteAndDrain, Recording;
    RunIsBare(cfg, strategy, cash, mirrored, events);
    var s := Ran(cfg, Recording(strategy), cash, mirrored, events);
    var now := if events == [] then 0 else events[|events| - 1].Ts();
    if s.Some? {
      TimersAreBare(strategy, s.value, now);
      CallIsBare(strategy, TimersFired(Recording(strategy), s.value, now), OnStop, now);
      RouteAndDrainIsBare(cfg, strategy, Called(Recording(strategy), TimersFired(Recording(strategy), s.value, now), OnStop, now), now);
    }
  }

  /** In every run the market is the feed so far, so equity is sampled at the last closes. */
  lemma EveryRunMarksAtLastCloses<S>(cfg: Config, strategy: Strategy<S>, cash: int, mirrored: Option<int>, events: seq<Event>)
    ensures var s := Ran(cfg, strategy, cash, mirrored, events);
            s.Some? ==>
              && |MarksOf(s.value.market)| == |cfg.specs|
              && forall i :: 0 <= i < |cfg.specs| ==> MarksOf(s.value.market)[i] == CloseOfLast(FeedBars(events, i))
  {
    hide Ran, Transcript, AllHonoured, MarketAfter, AccountAfter, MarksOf, FeedBars, BarsIn, BarsShown, Recording;
    EveryRunIsTold(cfg, strategy, cash, mirrored, events);
    RunIsBare(cfg, strategy, cash, mirrored, events);
    MarketIsTheFeed(|cfg.specs|, events);
  }

  // ---------------------------------------------------------------- the abort

  /** The system once the first n queued events have been handled, those queued meanwhile included. */
  function HandledUpTo<S>(cfg: Config, strategy: Strategy<S>, s: Sys<S>, n: nat, now: int): Sys<S> {
    if n == 0 then
      s
    else
      var u := HandledUpTo(cfg, strategy, s, n - 1, now);
      if n - 1 < |u.sink| then Handled(cfg, strategy, u, u.sink[n - 1], now) else u
  }

  lemma {:induction false} NothingMoreToHandle<S>(cfg: Config, strategy: Strategy<S>, s: Sys<S>, i: nat, n: nat, now: int)
    requires i <= n && |HandledUpTo(cfg, strategy, s, i, now).sink| <= i
    ensures HandledUpTo(cfg, strategy, s, n, now) == HandledUpTo(cfg, strategy, s, i, now)
    decreases n
  {
    hide Handled;
    if n > i { NothingMoreToHandle(cfg, strategy, s, i, n - 1, now); }
  }

  lemma {:induction false} AbortsFrom<S>(cfg: Config, strategy: Strategy<S>, s: Sys<S>, i: nat, now: int)
    requires i <= MAX_DRAIN_EVENTS
    ensures DrainedFrom(cfg, strategy, HandledUpTo(cfg, strategy, s, i, now), i, now).None?
            <==> |HandledUpTo(cfg, strategy, s, MAX_DRAIN_EVENTS, now).sink| > MAX_DRAIN_EVENTS
    decreases MAX_DRAIN_EVENTS - i
  {
    hide Handled;
    var u := HandledUpTo(cfg, strategy, s, i, now);
    if i >= |u.sink| {
      NothingMoreToHandle(cfg, strategy, s, i, MAX_DRAIN_EVENTS, now);
    } else if i < MAX_DRAIN_EVENTS {
      AbortsFrom(cfg, strategy, s, i + 1, now);
    }
  }

  /** A drain is aborted exactly when a million events handled still leave one queued. */
  lemma AbortsExactlyWhenRunaway<S>(cfg: Config, strategy: Strategy<S>, s: Sys<S>, now: int)
    ensures Drained(cfg, strategy, s, now).None? <==> |HandledUpTo(cfg, strategy, s, 1_000_000, now).sink| > 1_000_000
  {
    hide Handled;
    AbortsFrom(cfg, strategy, s, 0, now);
  }
}
