/**
 * The record-and-replay oracle end to end: whatever a strategy does, over whatever bars in time
 * order, what comparing the report of its run with its own replay reports. Runs in which nothing is
 * liquidated always match, and so do all runs that liquidate at a positive threshold.
 */
module RunReplay {
  import opened Prelude
  import opened Trading
  import opened Exchange
  import opened Lifecycle
  import opened Portfolio
  import opened Sync
  import opened Engine
  import opened EngineSync
  import opened EquityRun
  import opened Liquidations
  import opened TradeLedger
  import opened Replay
  import opened ReplayCheck

  // ---------------------------------------------------------------- what one bar writes in the log

  /** A fill as the venue emits it at `now`: of positive size, charged the configured fee. */
  ghost predicate ChargedAt(cfg: Config, e: AccountEvent, now: int) {
    e.Fill? ==> e.ts == now && e.qty > 0 && Total(e.costs) == MulBps(e.price * e.qty, cfg.feeBps)
  }

  lemma FeeIsCharged(cfg: Config, instrument: nat, price: int, qty: int)
    requires instrument < |cfg.specs|
    ensures Total(FeeCosts(cfg, instrument, price, qty)) == MulBps(price * qty, cfg.feeBps)
  {
    var fee := MulBps(price * qty, cfg.feeBps);
    var costs := FeeCosts(cfg, instrument, price, qty);
    if cfg.feeBps != 0 {
      assert costs == [fee] && [fee][..0] == [];
    } else {
      assert costs == [] && price * qty * 0 == 0;
    }
  }

  lemma SettledFillsAreCharged(cfg: Config, v: Venue, staged: seq<Staged>, now: int)
    requires forall f :: f in staged ==> f.qty > 0 && f.instrument < |cfg.specs|
    ensures forall e :: e in SettleFills(cfg, v, staged, now).1 ==> e.Fill? && ChargedAt(cfg, e, now)
  {
    OnlyFills(cfg, v, staged, now);
    hide SettleFills, FeeCosts, MulBps, Total;
    var fills := SettleFills(cfg, v, staged, now).1;
    forall e | e in fills ensures e.Fill? && ChargedAt(cfg, e, now) {
      var i :| 0 <= i < |fills| && fills[i] == e;
      assert staged[i] in staged;
      FeeIsCharged(cfg, staged[i].instrument, staged[i].price, staged[i].qty);
    }
  }

  lemma BarFillsAreCharged(cfg: Config, v: Venue, bar: Bar, now: int)
    requires Ascending(v.resting) && AllSound(cfg, v.resting)
    ensures forall e :: e in Observed(cfg, v, bar, now).1 ==> ChargedAt(cfg, e, now)
  {
    hide Observed, SettleFills, MulBps, Total, ScanLaw, BarParts;
    var s, fills, rest := ObservedParts(cfg, v, bar, now);
    var start := ScanStart(cfg, Marked(v, bar), bar);
    ScanEvents(cfg, bar, now, v.resting, start);
    StagedArePositive(cfg, bar, now, v.resting, start);
    StagedAreCatalogued(cfg, bar, now, v.resting, start);
    hide ScanOrders, AllSound, Ascending;
    SettledFillsAreCharged(cfg, Marked(v, bar).(resting := s.kept, drawn := s.drawn), s.staged, now);
  }

  // ---------------------------------------------------------------- the whole log

  /** Observations come in time order. */
  ghost predicate Timely(ops: seq<Op>) {
    forall i, j :: 0 <= i < j < |Sights(ops)| ==> Sights(ops)[i].now <= Sights(ops)[j].now
  }

  /** The fill log is well formed and no later than `now`. */
  ghost predicate WellFormedBy(cfg: Config, fills: seq<FillRecord>, now: int) {
    WellFormed(fills, cfg.feeBps) && forall f :: f in fills ==> f.ts <= now
  }

  lemma AppendWellFormed(cfg: Config, fills: seq<FillRecord>, f: FillRecord, now: int)
    requires WellFormedBy(cfg, fills, now) && f.ts == now && f.qty > 0 && ChargedBps(f, cfg.feeBps)
    ensures WellFormedBy(cfg, fills + [f], now)
  {
    hide MulBps;
    forall i, j | 0 <= i < j < |fills + [f]| ensures (fills + [f])[i].ts <= (fills + [f])[j].ts {
      assert fills[i] in fills;
    }
  }

  lemma {:induction false} EventsKeepWellFormed(cfg: Config, a: Account, events: seq<AccountEvent>, now: int)
    requires WellFormedBy(cfg, a.fills, now) && forall e :: e in events ==> ChargedAt(cfg, e, now)
    ensures WellFormedBy(cfg, AppliedAll(a, events).fills, now)
  {
    if events != [] {
      hide Settled, MulBps, Total;
      var init, e := events[..|events| - 1], events[|events| - 1];
      assert events == init + [e];
      EventsKeepWellFormed(cfg, a, init, now);
      if e.Fill? {
        assert ChargedAt(cfg, e, now);
        var f := FillRecord(e.id, e.instrument, e.side, e.price, e.qty, Total(e.costs), e.ts);
        AppendWellFormed(cfg, AppliedAll(a, init).fills, f, now);
      }
    }
  }

  lemma TimelyPrefix(ops: seq<Op>, now: int, fills: seq<FillRecord>, cfg: Config)
    requires ops != [] && Timely(ops)
    ensures Timely(ops[..|ops| - 1])
    ensures var init := ops[..|ops| - 1];
            ops[|ops| - 1].Observe? && Sights(init) != [] && WellFormedBy(cfg, fills, Sights(init)[|Sights(init)| - 1].now)
            ==> WellFormedBy(cfg, fills, ops[|ops| - 1].now)
  {
    hide WellFormed;
    var init := ops[..|ops| - 1];
    forall i, j | 0 <= i < j < |Sights(init)| ensures Sights(init)[i].now <= Sights(init)[j].now {
      assert Sights(ops)[i] == Sights(init)[i] && Sights(ops)[j] == Sights(init)[j];
    }
    if ops[|ops| - 1].Observe? && Sights(init) != [] {
      assert Sights(ops)[|Sights(init)| - 1].now <= Sights(ops)[|Sights(init)|].now;
    }
  }

  ghost predicate WellFormedSoFar(cfg: Config, fills: seq<FillRecord>, ops: seq<Op>) {
    if Sights(ops) == [] then fills == [] else WellFormedBy(cfg, fills, Sights(ops)[|Sights(ops)| - 1].now)
  }

  /** Only a bar fills orders: the fill log of a run with timely observations is well formed. */
  lemma {:induction false} RunLogIsWellFormed(cfg: Config, cash: int, mirrored: Option<int>, ops: seq<Op>)
    requires FreshIds(ops) && Timely(ops)
    ensures WellFormedSoFar(cfg, Rebuilt(cfg, cash, RunOps(cfg, mirrored, ops).1).fills, ops)
  {
    if ops != [] {
      hide Exec, Books, NewAccount, WellFormed, Timely;
      var init, op := ops[..|ops| - 1], ops[|ops| - 1];
      var (v, log) := RunOps(cfg, mirrored, init);
      var a := Rebuilt(cfg, cash, log);
      TimelyPrefix(ops, op.now, a.fills, cfg);
      RunLogIsWellFormed(cfg, cash, mirrored, init);
      EveryRunKeepsTheBooks(cfg, mirrored, init);
      var events := Exec(cfg, v, op).1;
      AppliedConcat(NewAccount(|cfg.specs|, cash), log, events);
      OpKeepsWellFormed(cfg, v, a, op, ops);
    }
  }

  lemma OpKeepsWellFormed(cfg: Config, v: Venue, a: Account, op: Op, ops: seq<Op>)
    requires ops != [] && op == ops[|ops| - 1] && Timely(ops)
    requires WellFormedSoFar(cfg, a.fills, ops[..|ops| - 1]) && Ascending(v.resting) && AllSound(cfg, v.resting)
    ensures WellFormedSoFar(cfg, AppliedAll(a, Exec(cfg, v, op).1).fills, ops)
  {
    hide WellFormed, Exec, Timely;
    match op
    case Submit(_, _, _) =>
      SubmitEffect(cfg, v, op);
      NoFillsAppend(a, Exec(cfg, v, op).1);
    case Cancel(_, _) =>
      CancelEffect(cfg, v, op);
      NoFillsAppend(a, Exec(cfg, v, op).1);
    case Observe(bar, now) =>
      TimelyPrefix(ops, now, a.fills, cfg);
      if Sights(ops[..|ops| - 1]) == [] { NothingIsWellFormed(cfg, now); }
      ExecObserve(cfg, v, bar, now);
      BarFillsAreCharged(cfg, v, bar, now);
      EventsKeepWellFormed(cfg, a, Exec(cfg, v, op).1, now);
  }

  lemma NothingIsWellFormed(cfg: Config, now: int)
    ensures WellFormedBy(cfg, [], now)
  {
  }

  lemma NoFillsAppend(a: Account, events: seq<AccountEvent>)
    requires |events| == 1 && !events[0].Fill?
    ensures AppliedAll(a, events).fills == a.fills
  {
    assert events[..0] == [] && AppliedAll(a, events[..0]) == a;
  }

  // ---------------------------------------------------------------- the engine observes its bars

  ghost predicate InBarOrder(events: seq<Event>) {
    forall i, j :: 0 <= i < j < |events| && events[i].BarEvent? && events[j].BarEvent? ==> events[i].bar.ts <= events[j].bar.ts
  }

  lemma {:induction false} BarOpsAreTimely(events: seq<Event>)
    requires InBarOrder(events)
    ensures forall i, j :: 0 <= i < j < |BarOps(events)| ==> BarOps(events)[i].now <= BarOps(events)[j].now
    ensures forall o :: o in BarOps(events) ==> exists i :: 0 <= i < |events| && events[i].BarEvent? && o == Observe(events[i].bar, events[i].bar.ts)
  {
    if events != [] {
      var init, last := events[..|events| - 1], events[|events| - 1];
      BarOpsAreTimely(init);
      var ops, more := BarOps(init), BarOps(events);
      forall o | o in more ensures exists i :: 0 <= i < |events| && events[i].BarEvent? && o == Observe(events[i].bar, events[i].bar.ts) {
        if o in ops {
          var i :| 0 <= i < |init| && init[i].BarEvent? && o == Observe(init[i].bar, init[i].bar.ts);
          assert events[i] == init[i];
        } else {
          assert o == Observe(last.bar, last.bar.ts) && events[|events| - 1] == last;
        }
      }
      forall i, j | 0 <= i < j < |more| ensures more[i].now <= more[j].now {
        assert more[i] == ops[i] && ops[i] in ops;
      }
    }
  }

  lemma StopSeesNothing<S>(cfg: Config, strategy: Strategy<S>, sys: Sys<S>, now: int)
    ensures var done := Stopped(cfg, strategy, sys, now); done.Some? ==> Sights(done.value.ops) == Sights(sys.ops)
  {
    hide FiredAll, RouteAndDrain;
    var waiting := sys.(gate := sys.gate.(timers := NotDue(sys.gate.timers, now)));
    FiringSeesNothing(strategy, waiting, Due(sys.gate.timers, now), now);
    RouteAndDrainSeesNothing(cfg, strategy, Called(strategy, TimersFired(strategy, sys, now), OnStop, now), now);
  }

  /** The run's observations are the bars it was fed. */
  lemma FinishedSights<S>(cfg: Config, cash: int, mirrored: Option<int>, strategy: Strategy<S>, events: seq<Event>)
    ensures var run := Finished(cfg, strategy, cash, mirrored, events); run.Some? ==> Sights(run.value.ops) == BarOps(events)
  {
    hide Ran, Stopped;
    RunCovers(cfg, cash, mirrored, strategy, events);
    var ran := Ran(cfg, strategy, cash, mirrored, events);
    if ran.Some? {
      StopSeesNothing(cfg, strategy, ran.value, if events == [] then 0 else events[|events| - 1].Ts());
    }
  }

  lemma FinishedIsTimely<S>(cfg: Config, cash: int, mirrored: Option<int>, strategy: Strategy<S>, events: seq<Event>)
    requires InBarOrder(events)
    ensures var run := Finished(cfg, strategy, cash, mirrored, events); run.Some? ==> Timely(run.value.ops)
  {
    hide Finished;
    FinishedSights(cfg, cash, mirrored, strategy, events);
    BarOpsAreTimely(events);
  }

  /** The fill log of every finished run over bars in time order is one the replay accepts. */
  lemma FinishedIsWellFormed<S>(cfg: Config, cash: int, mirrored: Option<int>, strategy: Strategy<S>, events: seq<Event>)
    requires InBarOrder(events)
    ensures var run := Finished(cfg, strategy, cash, mirrored, events);
            run.Some? ==>
              && WellFormed(run.value.account.fills, cfg.feeBps)
              && FreshIds(run.value.ops) && run.value.account == Rebuilt(cfg, cash, run.value.log)
              && RunOps(cfg, mirrored, run.value.ops) == (run.value.venue, run.value.log)
  {
    hide Finished, RunOps, Timely, WellFormed;
    FinishIsFaithful(cfg, cash, mirrored, strategy, events);
    FinishedIsTimely(cfg, cash, mirrored, strategy, events);
    var run := Finished(cfg, strategy, cash, mirrored, events);
    if run.Some? {
      assert run.value.sink[0..] == [];
      RunLogIsWellFormed(cfg, cash, mirrored, run.value.ops);
      NothingIsWellFormed(cfg, 0);
    }
  }

  // ---------------------------------------------------------------- the verdict on a run

  /** Whatever was not liquidated is realized by the run's own fills. */
  lemma UnliquidatedIsLedger(cfg: Config, cash: int, mirrored: Option<int>, ops: seq<Op>)
    requires FreshIds(ops) && !Liquidated(RunOps(cfg, mirrored, ops).1)
    ensures var a := Rebuilt(cfg, cash, RunOps(cfg, mirrored, ops).1); a.realized == TradedAll(EMPTY, a.fills).realized
  {
    hide RunOps, TradedAll;
    TradesAreCatalogued(cfg, mirrored.GetOr(cash), mirrored, ops);
    PortfolioIsLedger(|cfg.specs|, cash, RunOps(cfg, mirrored, ops).1);
  }

  /** The replay of the run's report completes, and comparing the two reports exactly these issues. */
  ghost predicate Reports<S>(run: Sys<S>, feeBps: int, issues: seq<Issue>) {
    var replay := ReplayTrades(run.account.fills, feeBps);
    replay.Some? && DiffReports(run.account, replay.value.account) == issues
  }

  /**
   * Over any bars in time order, for any strategy and configuration, the replay of a run's report
   * completes and compares equal, unless the run was liquidated and the liquidations booked nothing
   * between them; and then only the realized profit differs.
   */
  lemma EveryRunReplays<S>(cfg: Config, cash: int, mirrored: Option<int>, strategy: Strategy<S>, events: seq<Event>)
    requires InBarOrder(events)
    ensures var run := Finished(cfg, strategy, cash, mirrored, events);
            run.Some? ==>
              var report := run.value.account;
              var own := TradedAll(EMPTY, report.fills).realized;
              Reports(run.value, cfg.feeBps,
                      if Liquidated(run.value.log) && report.liquidationPnl == 0 && report.realized != own
                      then [RealizedPnl(report.realized, own)] else [])
              && (report.realized != own ==> Liquidated(run.value.log))
  {
    hide Finished, RunOps, ReplayTrades, DiffReports, TradedAll, WellFormed, Liquidated;
    FinishedIsWellFormed(cfg, cash, mirrored, strategy, events);
    var run := Finished(cfg, strategy, cash, mirrored, events);
    if run.Some? {
      ReplayVerdict(run.value.account, cfg.feeBps);
      if !Liquidated(run.value.log) { UnliquidatedIsLedger(cfg, cash, mirrored, run.value.ops); }
    }
  }

  /** So every run in which nothing is liquidated matches its replay, whatever the configuration. */
  lemma LiquidationFreeRunsMatch<S>(cfg: Config, cash: int, mirrored: Option<int>, strategy: Strategy<S>, events: seq<Event>)
    requires InBarOrder(events)
    ensures var run := Finished(cfg, strategy, cash, mirrored, events);
            run.Some? && !Liquidated(run.value.log) ==> Reports(run.value, cfg.feeBps, [])
  {
    hide Finished, Reports, TradedAll, Liquidated;
    EveryRunReplays(cfg, cash, mirrored, strategy, events);
  }

  ghost predicate BarsCloseNonNegative(events: seq<Event>) {
    forall e :: e in events && e.BarEvent? ==> e.bar.close >= 0
  }

  lemma {:induction false} ObservedAreSights(ops: seq<Op>)
    ensures forall op :: op in ops && op.Observe? ==> op in Sights(ops)
  {
    if ops != [] {
      assert ops == ops[..|ops| - 1] + [ops[|ops| - 1]];
      ObservedAreSights(ops[..|ops| - 1]);
    }
  }

  lemma {:induction false} BarOpsClose(events: seq<Event>)
    requires BarsCloseNonNegative(events)
    ensures ClosesNonNegative(BarOps(events))
  {
    if events != [] {
      assert events == events[..|events| - 1] + [events[|events| - 1]];
      BarOpsClose(events[..|events| - 1]);
    }
  }

  /**
   * With no liquidation threshold or a positive one, adverse slippage and closes that are not
   * negative, the booked liquidation profit is zero exactly when nothing was liquidated: the
   * comparison's gate is sound, and every run matches its replay.
   */
  lemma PositiveThresholdsMatch<S>(cfg: Config, cash: int, mirrored: Option<int>, strategy: Strategy<S>, events: seq<Event>)
    requires InBarOrder(events) && BarsCloseNonNegative(events) && LosesOnly(cfg)
    ensures var run := Finished(cfg, strategy, cash, mirrored, events);
            run.Some? ==>
              && (run.value.account.liquidationPnl == 0 <==> !Liquidated(run.value.log))
              && Reports(run.value, cfg.feeBps, [])
  {
    hide Finished, RunOps, Reports, TradedAll, Liquidated, LosesOnly, WellFormed, FreshIds;
    EveryRunReplays(cfg, cash, mirrored, strategy, events);
    FinishedIsWellFormed(cfg, cash, mirrored, strategy, events);
    FinishedSights(cfg, cash, mirrored, strategy, events);
    BarOpsClose(events);
    var run := Finished(cfg, strategy, cash, mirrored, events);
    if run.Some? {
      ObservedAreSights(run.value.ops);
      RunBooksLosses(cfg, cash, mirrored, run.value.ops);
    }
  }
}
