/**
 * The equity curve of a whole run. Every point the engine samples has every open position marked
 * and reconciles: initial cash plus realized plus unrealized profit minus fees and funding, up to
 * the rounding of the average entries.
 */
module EquityRun {
  import opened Prelude
  import opened Trading
  import opened Exchange
  import opened Lifecycle
  import opened Portfolio
  import opened Sync
  import opened Engine
  import opened EngineSync

  /** The instruments the venue has observed a bar of. */
  function Seen(ops: seq<Op>): set<nat> {
    if ops == [] then {}
    else Seen(ops[..|ops| - 1]) + (if ops[|ops| - 1].Observe? then {ops[|ops| - 1].bar.instrument} else {})
  }

  /** The observations a run made, in order. */
  function Sights(ops: seq<Op>): seq<Op> {
    if ops == [] then []
    else Sights(ops[..|ops| - 1]) + (if ops[|ops| - 1].Observe? then [ops[|ops| - 1]] else [])
  }

  /** The observation the engine makes of each bar it is fed. */
  function BarOps(events: seq<Event>): seq<Op> {
    if events == [] then []
    else BarOps(events[..|events| - 1])
         + (if events[|events| - 1].BarEvent? then [Observe(events[|events| - 1].bar, events[|events| - 1].bar.ts)] else [])
  }

  // ---------------------------------------------------------------- trades happen on observed instruments

  lemma {:induction false} SettlingTouchesOne(cfg: Config, v: Venue, staged: seq<Staged>, now: int, instrument: nat, i: nat)
    requires i != instrument && forall f :: f in staged ==> f.instrument == instrument
    ensures ShadowOf(SettleFills(cfg, v, staged, now).0.shadows, i) == ShadowOf(v.shadows, i)
  {
    if staged != [] {
      hide ApplyShadow;
      assert staged == staged[..|staged| - 1] + [staged[|staged| - 1]];
      SettlingTouchesOne(cfg, v, staged[..|staged| - 1], now, instrument, i);
    }
  }

  lemma ObserveTouchesOne(cfg: Config, v: Venue, bar: Bar, now: int, i: nat)
    requires AllSound(cfg, v.resting) && i != bar.instrument
    ensures ShadowOf(Observed(cfg, v, bar, now).0.shadows, i) == ShadowOf(v.shadows, i)
  {
    hide ScanOrders, SettleFills, ResolveClaims, ApplyShadow, MulRate, FundingRateAt, MustLiquidate, DropInstrument;
    var marked := Marked(v, bar);
    StagedArePositive(cfg, bar, now, v.resting, ScanStart(cfg, marked, bar));
    var s := ScanBar(cfg, marked, bar, now);
    SettlingTouchesOne(cfg, marked.(resting := s.kept, drawn := s.drawn), s.staged, now, bar.instrument, i);
  }

  lemma {:induction false} OnlyObservedTrade(cfg: Config, mirrored: Option<int>, ops: seq<Op>, i: nat)
    requires FreshIds(ops)
    ensures ShadowOf(RunOps(cfg, mirrored, ops).0.shadows, i).net != 0 ==> i in Seen(ops)
  {
    if ops != [] {
      hide Exec;
      var init, op := ops[..|ops| - 1], ops[|ops| - 1];
      OnlyObservedTrade(cfg, mirrored, init, i);
      EveryRunKeepsTheBooks(cfg, mirrored, init);
      var v := RunOps(cfg, mirrored, init).0;
      match op
      case Submit(_, _, _) => SubmitEffect(cfg, v, op);
      case Cancel(_, _) => CancelEffect(cfg, v, op);
      case Observe(bar, now) =>
        if i != bar.instrument {
          ObserveTouchesOne(cfg, v, bar, now, i);
          ExecObserve(cfg, v, bar, now);
        }
    }
  }

  lemma ExecObserve(cfg: Config, v: Venue, bar: Bar, now: int)
    ensures Exec(cfg, v, Observe(bar, now)) == Observed(cfg, v, bar, now)
  {
  }

  /** Every fill and every liquidation the venue emits is on an instrument of the catalogue. */
  lemma {:induction false} TradesAreCatalogued(cfg: Config, cash: int, mirrored: Option<int>, ops: seq<Op>)
    requires FreshIds(ops) && (mirrored.Some? ==> mirrored.value == cash)
    ensures forall e :: e in RunOps(cfg, mirrored, ops).1 ==> Catalogued(e, |cfg.specs|)
  {
    if ops != [] {
      hide Exec, InStep;
      var init, op := ops[..|ops| - 1], ops[|ops| - 1];
      TradesAreCatalogued(cfg, cash, mirrored, init);
      EveryRunKeepsTheBooks(cfg, mirrored, init);
      EveryRunStaysInStep(cfg, cash, mirrored, init);
      var (v, log) := RunOps(cfg, mirrored, init);
      match op
      case Submit(_, _, _) => SubmitEffect(cfg, v, op);
      case Cancel(_, _) => CancelEffect(cfg, v, op);
      case Observe(bar, now) =>
        ExecObserve(cfg, v, bar, now);
        BarTradesAreCatalogued(cfg, v, Rebuilt(cfg, cash, log), bar, now);
    }
  }

  lemma BarTradesAreCatalogued(cfg: Config, v: Venue, a: Account, bar: Bar, now: int)
    requires InStep(v, a) && |a.positions| == |cfg.specs| && AllSound(cfg, v.resting)
    ensures forall e :: e in Observed(cfg, v, bar, now).1 ==> Catalogued(e, |cfg.specs|)
  {
    hide ScanOrders, SettleOne, AccrueFunding, CheckLiquidation, AppliedAll, MoneyInStep, FillEvent;
    var marked := Marked(v, bar);
    var s := ScanBar(cfg, marked, bar, now);
    ScanEvents(cfg, bar, now, v.resting, ScanStart(cfg, marked, bar));
    StagedAreCatalogued(cfg, bar, now, v.resting, ScanStart(cfg, marked, bar));
    var ready := marked.(resting := s.kept, drawn := s.drawn);
    MarkingKeepsMoney(v, a, bar, ready);
    FillsAreCatalogued(cfg, ready, s.staged, now);
    var (settled, fills) := SettleFills(cfg, ready, s.staged, now);
    FillsKeepMoney(cfg, ready, a, s.staged, now);
    var (legs, resolved) := ResolveClaims(settled.resting, s.claims, now);
    ResolveEvents(settled.resting, s.claims, now);
    ResolvingKeepsMoney(settled, legs, AppliedAll(a, fills));
    CloseIsCatalogued(cfg, settled.(resting := legs), AppliedAll(a, fills), bar, now);
  }

  lemma ResolvingKeepsMoney(v: Venue, legs: seq<Resting>, a: Account)
    requires MoneyInStep(v, a)
    ensures MoneyInStep(v.(resting := legs), a)
  {
    SameMoney(v, a, v.(resting := legs), a);
  }

  lemma FillsAreCatalogued(cfg: Config, v: Venue, staged: seq<Staged>, now: int)
    requires forall f :: f in staged ==> f.instrument < |cfg.specs|
    ensures forall e :: e in SettleFills(cfg, v, staged, now).1 ==> Catalogued(e, |cfg.specs|)
  {
    OnlyFills(cfg, v, staged, now);
    hide SettleFills;
  }

  /** Funding trades nothing, and only an open position, so a catalogued one, is liquidated. */
  lemma CloseIsCatalogued(cfg: Config, v: Venue, a: Account, bar: Bar, now: int)
    requires MoneyInStep(v, a) && |a.positions| == |cfg.specs|
    ensures var (funded, funding) := AccrueFunding(cfg, v, bar, now);
            forall e :: e in funding + CheckLiquidation(cfg, funded, bar, now).1 ==> Catalogued(e, |cfg.specs|)
  {
    hide MulRate, FundingRateAt, FeeCosts, Slipped, SettleOne, AppliedAll, SettledCash;
    var (funded, funding) := AccrueFunding(cfg, v, bar, now);
    assert ShadowOf(v.shadows, bar.instrument).Held() == PositionAt(a, bar.instrument);
    DropEvents(funded.resting, bar.instrument, now);
  }

  // ---------------------------------------------------------------- the market covers what was observed

  /** Callbacks, routing and draining add no observations and leave the market alone. */
  ghost predicate SameSight<S>(s: Sys<S>, t: Sys<S>) {
    t.market == s.market && Seen(t.ops) == Seen(s.ops) && Sights(t.ops) == Sights(s.ops) && t.curve == s.curve
  }

  lemma {:induction false} RoutingSeesNothing<S>(cfg: Config, sys: Sys<S>, actions: seq<GateAction>, now: int)
    ensures SameSight(sys, RoutedAll(cfg, sys, actions, now))
  {
    if actions != [] {
      hide Exec;
      RoutingSeesNothing(cfg, sys, actions[..|actions| - 1], now);
      var s := RoutedAll(cfg, sys, actions[..|actions| - 1], now);
      assert (s.ops + [AsOp(actions[|actions| - 1], now)])[..|s.ops|] == s.ops;
    }
  }

  lemma HandlingSeesNothing<S>(cfg: Config, strategy: Strategy<S>, sys: Sys<S>, e: AccountEvent, now: int)
    ensures SameSight(sys, Handled(cfg, strategy, sys, e, now))
  {
    hide RoutedAll, Applied;
    var applied := sys.(account := Applied(sys.account, e));
    var told := if HasSpecificCallback(e) then Called(strategy, applied, OnSpecific(e), now) else applied;
    var called := Called(strategy, told, OnAccount(e), now);
    RoutingSeesNothing(cfg, called.(gate := called.gate.(pending := [])), called.gate.pending, now);
  }

  lemma {:induction false} DrainingSeesNothing<S>(cfg: Config, strategy: Strategy<S>, sys: Sys<S>, i: nat, now: int)
    ensures var done := DrainedFrom(cfg, strategy, sys, i, now); done.Some? ==> SameSight(sys, done.value)
    decreases MAX_DRAIN_EVENTS - i
  {
    hide Handled;
    if i < |sys.sink| && i < MAX_DRAIN_EVENTS {
      HandlingSeesNothing(cfg, strategy, sys, sys.sink[i], now);
      DrainingSeesNothing(cfg, strategy, Handled(cfg, strategy, sys, sys.sink[i], now), i + 1, now);
    }
  }

  lemma {:induction false} FiringSeesNothing<S>(strategy: Strategy<S>, sys: Sys<S>, due: seq<int>, now: int)
    ensures SameSight(sys, FiredAll(strategy, sys, due, now))
  {
    if due != [] { FiringSeesNothing(strategy, sys, due[..|due| - 1], now); }
  }

  lemma RouteAndDrainSeesNothing<S>(cfg: Config, strategy: Strategy<S>, sys: Sys<S>, now: int)
    ensures var done := RouteAndDrain(cfg, strategy, sys, now); done.Some? ==> SameSight(sys, done.value)
  {
    hide RoutedAll, DrainedFrom;
    RoutingSeesNothing(cfg, sys.(gate := sys.gate.(pending := [])), sys.gate.pending, now);
    DrainingSeesNothing(cfg, strategy, Routed(cfg, sys, now), 0, now);
  }

  /** Every catalogued instrument observed so far, save `exempt`, has a bar in the market. */
  ghost predicate MarketCovers<S>(cfg: Config, sys: Sys<S>, exempt: set<nat>) {
    && |sys.market.bars| == |cfg.specs|
    && forall i :: i in Seen(sys.ops) && i < |cfg.specs| && i !in exempt ==> sys.market.bars[i] != []
  }

  /** What a step does to the market, the observations and the curve. */
  ghost predicate StepSeen<S>(cfg: Config, sys: Sys<S>, event: Event, done: Sys<S>) {
    && MarketCovers(cfg, done, {}) && done.curve == sys.curve + Sample(done, event)
    && Sights(done.ops) == Sights(sys.ops) + BarOps([event])
  }

  lemma OneBarOp(event: Event)
    ensures BarOps([event]) == if event.BarEvent? then [Observe(event.bar, event.bar.ts)] else []
  {
    assert [event][..0] == [] && BarOps([]) == [];
  }

  lemma ObservedSights<S>(cfg: Config, sys: Sys<S>, bar: Bar, now: int)
    ensures var observed := Executed(cfg, sys, Observe(bar, now));
            && observed.market == sys.market && observed.curve == sys.curve
            && Seen(observed.ops) == Seen(sys.ops) + {bar.instrument} && Sights(observed.ops) == Sights(sys.ops) + [Observe(bar, now)]
  {
    hide Exec;
    assert (sys.ops + [Observe(bar, now)])[..|sys.ops|] == sys.ops;
  }

  lemma TimersSeeNothing<S>(strategy: Strategy<S>, sys: Sys<S>, now: int)
    ensures SameSight(sys, TimersFired(strategy, sys, now))
  {
    hide FiredAll, Due, NotDue;
    FiringSeesNothing(strategy, sys.(gate := sys.gate.(timers := NotDue(sys.gate.timers, now))), Due(sys.gate.timers, now), now);
  }

  lemma BarIsPushed<S>(cfg: Config, sys: Sys<S>, filled: Sys<S>, bar: Bar)
    requires MarketCovers(cfg, sys, {}) && filled.market == sys.market && Seen(filled.ops) == Seen(sys.ops) + {bar.instrument}
    ensures MarketCovers(cfg, filled.(market := Pushed(filled.market, bar)), {})
  {
    hide Seen;
  }

  lemma DecidingSeesBar<S>(cfg: Config, strategy: Strategy<S>, filled: Sys<S>, bar: Bar)
    requires MarketCovers(cfg, filled.(market := Pushed(filled.market, bar)), {})
    ensures var done := Decided(cfg, strategy, filled, bar);
            done.Some? ==>
              && MarketCovers(cfg, done.value, {}) && Sights(done.value.ops) == Sights(filled.ops)
              && done.value.curve == filled.curve + Sample(done.value, BarEvent(bar))
  {
    hide RouteAndDrain, TimersFired, Equity, Pushed, Seen, Sights;
    var pushed := filled.(market := Pushed(filled.market, bar));
    TimersSeeNothing(strategy, pushed, bar.ts);
    var called := Called(strategy, TimersFired(strategy, pushed, bar.ts), OnBar(bar), bar.ts);
    RouteAndDrainSeesNothing(cfg, strategy, called.(bars := called.bars + 1), bar.ts);
  }

  lemma BarStepSeen<S>(cfg: Config, strategy: Strategy<S>, sys: Sys<S>, bar: Bar)
    requires MarketCovers(cfg, sys, {})
    ensures var done := Stepped(cfg, strategy, sys, BarEvent(bar)); done.Some? ==> StepSeen(cfg, sys, BarEvent(bar), done.value)
  {
    hide DrainedFrom, Decided, Executed, MarketCovers, Equity, Seen, Sights, BarOps;
    OneBarOp(BarEvent(bar));
    var observed := Executed(cfg, sys, Observe(bar, bar.ts));
    ObservedSights(cfg, sys, bar, bar.ts);
    DrainingSeesNothing(cfg, strategy, observed, 0, bar.ts);
    var filled := Drained(cfg, strategy, observed, bar.ts);
    if filled.Some? {
      BarIsPushed(cfg, sys, filled.value, bar);
      DecidingSeesBar(cfg, strategy, filled.value, bar);
    }
  }

  lemma SameSightCovers<S>(cfg: Config, sys: Sys<S>, done: Sys<S>, event: Event)
    requires MarketCovers(cfg, sys, {}) && !event.BarEvent?
    requires done.market.bars == sys.market.bars && Seen(done.ops) == Seen(sys.ops) && Sights(done.ops) == Sights(sys.ops) && done.curve == sys.curve
    ensures StepSeen(cfg, sys, event, done)
  {
    OneBarOp(event);
    hide Seen, Sights, BarOps;
  }

  lemma SideStepSeen<S>(cfg: Config, strategy: Strategy<S>, sys: Sys<S>, event: Event)
    requires MarketCovers(cfg, sys, {}) && !event.BarEvent?
    ensures var done := Stepped(cfg, strategy, sys, event); done.Some? ==> StepSeen(cfg, sys, event, done.value)
  {
    hide DrainedFrom, RouteAndDrain, TimersFired, MarketCovers, Seen, Sights, StepSeen;
    var now := event.Ts();
    DrainingSeesNothing(cfg, strategy, sys, 0, now);
    var quiet := Drained(cfg, strategy, sys, now);
    if quiet.Some? {
      match event
      case ResyncEvent(scope, at) =>
        var queued := quiet.value.(sink := quiet.value.sink + [Resync(scope, at)]);
        TimersSeeNothing(strategy, queued, now);
        DrainingSeesNothing(cfg, strategy, TimersFired(strategy, queued, now), 0, now);
      case SignalEvent(instrument, channel, value, _) =>
        var seen := quiet.value.(market := Signaled(quiet.value.market, instrument, channel, value));
        TimersSeeNothing(strategy, seen, now);
        RouteAndDrainSeesNothing(cfg, strategy, TimersFired(strategy, seen, now), now);
    }
    var done := Stepped(cfg, strategy, sys, event);
    if done.Some? { SameSightCovers(cfg, sys, done.value, event); }
  }

  lemma StepCovers<S>(cfg: Config, strategy: Strategy<S>, sys: Sys<S>, event: Event)
    requires MarketCovers(cfg, sys, {})
    ensures var done := Stepped(cfg, strategy, sys, event); done.Some? ==> StepSeen(cfg, sys, event, done.value)
  {
    hide Stepped, StepSeen;
    if event.BarEvent? { BarStepSeen(cfg, strategy, sys, event.bar); } else { SideStepSeen(cfg, strategy, sys, event); }
  }

  /** What an event adds to the equity curve: for a bar, this moment's equity. */
  function Sample<S>(sys: Sys<S>, event: Event): seq<(int, int)> {
    if event.BarEvent? then [(event.bar.ts, Equity(sys.account, MarksOf(sys.market)))] else []
  }

  lemma {:induction false} RunCovers<S>(cfg: Config, cash: int, mirrored: Option<int>, strategy: Strategy<S>, events: seq<Event>)
    ensures var sys := Ran(cfg, strategy, cash, mirrored, events);
            sys.Some? ==> MarketCovers(cfg, sys.value, {}) && Sights(sys.value.ops) == BarOps(events)
  {
    hide Stepped, RouteAndDrain;
    if events == [] {
      RouteAndDrainSeesNothing(cfg, strategy, Called(strategy, Fresh(cfg, strategy, cash, mirrored), OnStart, 0), 0);
    } else {
      RunCovers(cfg, cash, mirrored, strategy, events[..|events| - 1]);
      var sys := Ran(cfg, strategy, cash, mirrored, events[..|events| - 1]);
      if sys.Some? {
        StepCovers(cfg, strategy, sys.value, events[|events| - 1]);
        var last := [events[|events| - 1]];
        assert last[..0] == [] && BarOps(last[..0]) == [];
      }
    }
  }

  /**
   * The value is cash put in, plus realized and unrealized profit, minus fees and funding, plus a
   * rounding error of at most half a unit per unit of size over the position-increasing fills.
   */
  ghost predicate Reconciles<S>(cfg: Config, cash: int, sys: Sys<S>, value: int) {
    var start := NewAccount(|cfg.specs|, cash);
    && value == cash + sys.account.realized + SumTo(|cfg.specs|, UnrealizedOf(sys.account, MarksOf(sys.market)))
                - sys.account.tradingFees - sys.account.fundingNet + TotalRounding(start, sys.log)
    && 2 * Abs(TotalRounding(start, sys.log)) <= IncreasedSize(start, sys.log)
  }

  lemma CoveredEquityReconciles<S>(cfg: Config, cash: int, mirrored: Option<int>, sys: Sys<S>)
    requires mirrored.Some? ==> mirrored.value == cash
    requires Faithful(cfg, cash, mirrored, sys, 0) && sys.sink == [] && MarketCovers(cfg, sys, {})
    ensures Reconciles(cfg, cash, sys, Equity(sys.account, MarksOf(sys.market)))
  {
    hide Books, InStep, Equity, TotalRounding, IncreasedSize, UnrealizedOf, RunOps;
    DrainedIsInStep(cfg, cash, mirrored, sys);
    TradesAreCatalogued(cfg, cash, mirrored, sys.ops);
    HeldIsMarked(cfg, cash, mirrored, sys);
    EquityIdentity(|cfg.specs|, cash, sys.log, MarksOf(sys.market));
  }

  /** A run ending in a bar adds one point, which reconciles. */
  lemma LastPointReconciles<S>(cfg: Config, cash: int, mirrored: Option<int>, strategy: Strategy<S>, events: seq<Event>)
    requires (mirrored.Some? ==> mirrored.value == cash) && events != []
    ensures var before, ran := Ran(cfg, strategy, cash, mirrored, events[..|events| - 1]), Ran(cfg, strategy, cash, mirrored, events);
            ran.Some? ==>
              && before.Some? && ran.value.curve == before.value.curve + Sample(ran.value, events[|events| - 1])
              && Reconciles(cfg, cash, ran.value, Equity(ran.value.account, MarksOf(ran.value.market)))
  {
    hide Stepped, Faithful, MarketCovers, Equity, Reconciles;
    var ran, before := Ran(cfg, strategy, cash, mirrored, events), Ran(cfg, strategy, cash, mirrored, events[..|events| - 1]);
    if ran.Some? {
      RunCovers(cfg, cash, mirrored, strategy, events[..|events| - 1]);
      StepCovers(cfg, strategy, before.value, events[|events| - 1]);
      RunIsFaithful(cfg, cash, mirrored, strategy, events);
      CoveredEquityReconciles(cfg, cash, mirrored, ran.value);
    }
  }

  /** Point n of the curve is the equity after the n-th bar of the feed, which is event k, and it reconciles. */
  ghost predicate PointOf<S>(cfg: Config, cash: int, mirrored: Option<int>, strategy: Strategy<S>, events: seq<Event>, k: nat, point: (int, int))
    requires k < |events| && events[k].BarEvent?
  {
    var past := Ran(cfg, strategy, cash, mirrored, events[..k + 1]);
    past.Some? && point.0 == events[k].bar.ts && Reconciles(cfg, cash, past.value, point.1)
  }

  ghost predicate CurveReconciles<S>(cfg: Config, cash: int, mirrored: Option<int>, strategy: Strategy<S>, events: seq<Event>, curve: seq<(int, int)>) {
    && |curve| == |BarOps(events)|
    && forall k :: 0 <= k < |events| && events[k].BarEvent? ==>
         |BarOps(events[..k])| < |curve| && PointOf(cfg, cash, mirrored, strategy, events, k, curve[|BarOps(events[..k])|])
  }

  /**
   * Every point of every equity curve reconciles: there is one per bar of the feed, in order, and
   * each is the value of the account after that bar.
   */
  lemma {:induction false} EveryEquityPointReconciles<S>(cfg: Config, cash: int, mirrored: Option<int>, strategy: Strategy<S>, events: seq<Event>)
    requires mirrored.Some? ==> mirrored.value == cash
    ensures var ran := Ran(cfg, strategy, cash, mirrored, events);
            ran.Some? ==> CurveReconciles(cfg, cash, mirrored, strategy, events, ran.value.curve)
  {
    hide Stepped, Equity, Reconciles, CurveReconciles;
    var ran := Ran(cfg, strategy, cash, mirrored, events);
    if ran.Some? {
      if events == [] {
        NoCurve(cfg, cash, mirrored, strategy);
      } else {
        var init := events[..|events| - 1];
        LastPointReconciles(cfg, cash, mirrored, strategy, events);
        EveryEquityPointReconciles(cfg, cash, mirrored, strategy, init);
        CurveExtends(cfg, cash, mirrored, strategy, events, Ran(cfg, strategy, cash, mirrored, init).value.curve, ran.value);
      }
    }
  }

  lemma NoCurve<S>(cfg: Config, cash: int, mirrored: Option<int>, strategy: Strategy<S>)
    ensures var ran := Ran(cfg, strategy, cash, mirrored, []);
            ran.Some? ==> CurveReconciles(cfg, cash, mirrored, strategy, [], ran.value.curve)
  {
    hide RouteAndDrain;
    RouteAndDrainSeesNothing(cfg, strategy, Called(strategy, Fresh(cfg, strategy, cash, mirrored), OnStart, 0), 0);
  }

  lemma CurveExtends<S>(cfg: Config, cash: int, mirrored: Option<int>, strategy: Strategy<S>, events: seq<Event>, curve: seq<(int, int)>, ran: Sys<S>)
    requires events != [] && CurveReconciles(cfg, cash, mirrored, strategy, events[..|events| - 1], curve)
    requires Ran(cfg, strategy, cash, mirrored, events) == Some(ran) && ran.curve == curve + Sample(ran, events[|events| - 1])
    requires Reconciles(cfg, cash, ran, Equity(ran.account, MarksOf(ran.market)))
    ensures CurveReconciles(cfg, cash, mirrored, strategy, events, ran.curve)
  {
    hide Ran, Equity, Reconciles;
    var init, n := events[..|events| - 1], |events| - 1;
    assert events[..n + 1] == events;
    forall k | 0 <= k < |events| && events[k].BarEvent?
      ensures |BarOps(events[..k])| < |ran.curve| && PointOf(cfg, cash, mirrored, strategy, events, k, ran.curve[|BarOps(events[..k])|])
    {
      if k < n {
        assert init[k] == events[k] && init[..k] == events[..k] && init[..k + 1] == events[..k + 1];
        assert PointOf(cfg, cash, mirrored, strategy, init, k, curve[|BarOps(init[..k])|]);
      }
    }
  }

  lemma HeldIsMarked<S>(cfg: Config, cash: int, mirrored: Option<int>, sys: Sys<S>)
    requires FreshIds(sys.ops) && RunOps(cfg, mirrored, sys.ops) == (sys.venue, sys.log)
    requires sys.account == Rebuilt(cfg, cash, sys.log) && InStep(sys.venue, sys.account) && MarketCovers(cfg, sys, {})
    ensures forall i: nat :: i in sys.account.held ==> i < |MarksOf(sys.market)| && MarksOf(sys.market)[i].Some?
  {
    hide RunOps;
    HeldStaysExact(NewAccount(|cfg.specs|, cash), sys.log);
    forall i: nat | i in sys.account.held ensures i < |MarksOf(sys.market)| && MarksOf(sys.market)[i].Some? {
      OnlyObservedTrade(cfg, mirrored, sys.ops, i);
      assert ShadowOf(sys.venue.shadows, i).Held() == PositionAt(sys.account, i);
    }
  }
}
