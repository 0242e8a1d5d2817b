/**
 * The venue and the account stay in step. The portfolio never asks the venue anything: it is
 * rebuilt from emitted events. Over every run, the account rebuilt from the venue's events lists
 * exactly the venue's resting orders, holds exactly its shadow positions and has its cash.
 */
module Sync {
  import opened Prelude
  import opened Trading
  import opened AverageCost
  import opened Exchange
  import opened Lifecycle
  import opened Portfolio

  function Ids(resting: seq<Resting>): seq<nat> {
    seq(|resting|, i requires 0 <= i < |resting| => resting[i].id)
  }

  // ---------------------------------------------------------------- positions and cash

  function PositionAt(a: Account, i: nat): Position {
    if i < |a.positions| then a.positions[i] else FLAT
  }

  ghost predicate MoneyInStep(v: Venue, a: Account) {
    && (forall i: nat :: ShadowOf(v.shadows, i).Held() == PositionAt(a, i))
    && (v.cash.Some? ==> v.cash.value == a.cash)
  }

  /** The venue's own position arithmetic makes the portfolio's transitions. */
  lemma ShadowTransition(s: Shadow, side: Side, price: int, qty: int)
    ensures ApplyShadow(s, side, price, qty).Held() == NextPosition(s.Held(), side.Sign() * qty, price)
    ensures ApplyShadow(s, side, price, qty).bars == s.bars && ApplyShadow(s, side, price, qty).mark == s.mark
  {
    if s.net < 0 && side.Sign() * qty == 0 {
      AverageEntryOfNothing(Abs(s.net), s.avg, price);
    }
    hide AverageEntry;
  }

  lemma TradeKeepsMoney(cfg: Config, v: Venue, a: Account, f: Staged, e: AccountEvent)
    requires MoneyInStep(v, a) && f.instrument < |a.positions|
    requires e.Fill? || e.Liquidation?
    requires e.instrument == f.instrument && e.side == f.side && e.price == f.price && e.qty == f.qty
             && e.costs == FeeCosts(cfg, f.instrument, f.price, f.qty)
    ensures MoneyInStep(SettleOne(cfg, v, f), Applied(a, e)) && |Applied(a, e).positions| == |a.positions|
  {
    ShadowTransition(ShadowOf(v.shadows, f.instrument), f.side, f.price, f.qty);
    hide ApplyShadow, NextPosition, FeeCosts;
    TradeCash(f.side.Sign(), f.price, f.qty);
    var w, b := SettleOne(cfg, v, f), Applied(a, e);
    forall i: nat ensures ShadowOf(w.shadows, i).Held() == PositionAt(b, i) {
      assert ShadowOf(v.shadows, i).Held() == PositionAt(a, i);
    }
  }

  lemma TradeCash(sign: int, price: int, qty: int)
    ensures sign * (price * qty) == sign * qty * price
  {
  }

  /** Events that concern neither trades nor funding leave positions and cash alone. */
  lemma {:induction false} LifecycleEventsKeepMoney(v: Venue, a: Account, events: seq<AccountEvent>)
    requires MoneyInStep(v, a)
    requires forall e :: e in events ==> !e.Fill? && !e.Liquidation? && !e.FundingSettlement?
    ensures MoneyInStep(v, AppliedAll(a, events)) && |AppliedAll(a, events).positions| == |a.positions|
  {
    if events != [] {
      var init, e := events[..|events| - 1], events[|events| - 1];
      assert events == init + [e];
      LifecycleEventsKeepMoney(v, a, init);
      assert forall i: nat :: PositionAt(AppliedAll(a, events), i) == PositionAt(AppliedAll(a, init), i);
    }
  }

  lemma {:induction false} FillsKeepMoney(cfg: Config, v: Venue, a: Account, staged: seq<Staged>, now: int)
    requires MoneyInStep(v, a) && forall f :: f in staged ==> f.instrument < |a.positions|
    ensures var (w, events) := SettleFills(cfg, v, staged, now);
            MoneyInStep(w, AppliedAll(a, events)) && |AppliedAll(a, events).positions| == |a.positions|
  {
    if staged != [] {
      var init, f := staged[..|staged| - 1], staged[|staged| - 1];
      assert staged == init + [f];
      FillsKeepMoney(cfg, v, a, init, now);
      var (w, events) := SettleFills(cfg, v, init, now);
      var e := FillEvent(cfg, f, now);
      TradeKeepsMoney(cfg, w, AppliedAll(a, events), f, e);
      hide SettleOne, Applied, FillEvent;
      assert (events + [e])[..|events|] == events;
    }
  }

  lemma FundingKeepsMoney(cfg: Config, v: Venue, a: Account, bar: Bar, now: int)
    requires MoneyInStep(v, a)
    ensures var (w, events) := AccrueFunding(cfg, v, bar, now);
            MoneyInStep(w, AppliedAll(a, events)) && |AppliedAll(a, events).positions| == |a.positions|
  {
    hide MulRate, FundingRateAt;
    var (w, events) := AccrueFunding(cfg, v, bar, now);
    forall i: nat ensures ShadowOf(w.shadows, i).Held() == PositionAt(a, i) {
      assert ShadowOf(v.shadows, i).Held() == PositionAt(a, i);
    }
    if events != [] {
      assert events == [events[0]] && events[..0] == [];
      assert Total([events[0].cost]) == events[0].cost by { assert [events[0].cost][..0] == []; }
      assert AppliedAll(a, events) == Applied(a, events[0]);
      assert forall i: nat :: PositionAt(AppliedAll(a, events), i) == PositionAt(a, i);
    }
  }

  lemma {:induction false} DropEvents(resting: seq<Resting>, instrument: nat, now: int)
    ensures forall e :: e in DropInstrument(resting, instrument, now).1 ==> e.OrderCanceled?
  {
    if resting != [] { DropEvents(resting[..|resting| - 1], instrument, now); }
  }

  lemma LiquidationKeepsMoney(cfg: Config, v: Venue, a: Account, bar: Bar, now: int)
    requires MoneyInStep(v, a)
    ensures var (w, events) := CheckLiquidation(cfg, v, bar, now);
            MoneyInStep(w, AppliedAll(a, events)) && |AppliedAll(a, events).positions| == |a.positions|
  {
    hide SettleOne, FeeCosts, Slipped, Applied;
    var shadow := ShadowOf(v.shadows, bar.instrument);
    var (w, events) := CheckLiquidation(cfg, v, bar, now);
    if events != [] {
      var f := LiquidationFill(cfg, shadow, bar);
      assert shadow.Held() == PositionAt(a, bar.instrument);
      var e, canceled := events[0], DropInstrument(v.resting, bar.instrument, now).1;
      TradeKeepsMoney(cfg, v, a, f, e);
      DropEvents(v.resting, bar.instrument, now);
      assert events == [e] + canceled;
      AppliedConcat(a, [e], canceled);
      assert [e][..0] == [] && AppliedAll(a, [e]) == Applied(a, e);
      LifecycleEventsKeepMoney(SettleOne(cfg, v, f), Applied(a, e), canceled);
    }
  }

  lemma {:induction false} ResolveEvents(resting: seq<Resting>, claims: seq<Claim>, now: int)
    ensures forall e :: e in ResolveClaims(resting, claims, now).1 ==> e.OrderCanceled?
  {
    if claims != [] {
      ResolveEvents(resting, claims[..|claims| - 1], now);
      ResolveOneEvents(ResolveClaims(resting, claims[..|claims| - 1], now).0, claims[|claims| - 1], now);
    }
  }

  lemma {:induction false} ResolveOneEvents(resting: seq<Resting>, c: Claim, now: int)
    ensures forall e :: e in ResolveClaim(resting, c, now).1 ==> e.OrderCanceled?
  {
    if resting != [] { ResolveOneEvents(resting[..|resting| - 1], c, now); }
  }

  lemma {:induction false} ScanEvents(cfg: Config, bar: Bar, now: int, pending: seq<Resting>, start: Scan)
    requires AllSound(cfg, pending) && start.events == []
    ensures forall e :: e in ScanOrders(cfg, bar, now, pending, start).events ==> e.OrderTriggered? || e.OrderCanceled? || e.OrderExpired?
  {
    hide Decide;
    if pending != [] {
      var init, r := pending[..|pending| - 1], pending[|pending| - 1];
      assert pending == init + [r];
      ScanEvents(cfg, bar, now, init, start);
      DecisionFate(cfg, bar, now, ScanOrders(cfg, bar, now, init, start), r);
    }
  }

  /** A bar up to and with its funding, before liquidation is checked. */
  function BeforeClose(cfg: Config, v: Venue, bar: Bar, now: int): (Venue, seq<AccountEvent>) {
    var marked := Marked(v, bar);
    var s := ScanBar(cfg, marked, bar, now);
    var (settled, fills) := SettleFills(cfg, marked.(resting := s.kept, drawn := s.drawn), s.staged, now);
    var (legs, resolved) := ResolveClaims(settled.resting, s.claims, now);
    var (funded, funding) := AccrueFunding(cfg, settled.(resting := legs), bar, now);
    (funded, s.events + fills + resolved + funding)
  }

  lemma ClosedAfter(cfg: Config, v: Venue, bar: Bar, now: int)
    ensures var (funded, before) := BeforeClose(cfg, v, bar, now);
            var (final, liquidated) := CheckLiquidation(cfg, funded, bar, now);
            Observed(cfg, v, bar, now) == (final, before + liquidated)
  {
    hide ScanOrders, SettleFills, ResolveClaims, AccrueFunding, CheckLiquidation;
  }

  /** Nothing is liquidated before the close. */
  lemma QuietBeforeClose(cfg: Config, v: Venue, bar: Bar, now: int)
    requires AllSound(cfg, v.resting)
    ensures forall e :: e in BeforeClose(cfg, v, bar, now).1 ==> !e.Liquidation?
  {
    hide ScanOrders, SettleFills, ResolveClaims, AccrueFunding;
    var marked := Marked(v, bar);
    var s := ScanBar(cfg, marked, bar, now);
    var ready := marked.(resting := s.kept, drawn := s.drawn);
    var settled := SettleFills(cfg, ready, s.staged, now).0;
    ScanEvents(cfg, bar, now, v.resting, ScanStart(cfg, marked, bar));
    OnlyFills(cfg, ready, s.staged, now);
    ResolveEvents(settled.resting, s.claims, now);
    FundingOnly(cfg, settled.(resting := ResolveClaims(settled.resting, s.claims, now).0), bar, now);
  }

  /** What a bar emits before its close keeps positions and cash in step. */
  lemma BeforeCloseKeepsMoney(cfg: Config, v: Venue, a: Account, bar: Bar, now: int)
    requires MoneyInStep(v, a) && |a.positions| == |cfg.specs| && AllSound(cfg, v.resting)
    ensures var (funded, before) := BeforeClose(cfg, v, bar, now);
            MoneyInStep(funded, AppliedAll(a, before)) && |AppliedAll(a, before).positions| == |a.positions|
  {
    hide Decide, Advance, Applied, SettleOne, AccrueFunding;
    var marked := Marked(v, bar);
    var s := ScanBar(cfg, marked, bar, now);
    ScanEvents(cfg, bar, now, v.resting, ScanStart(cfg, marked, bar));
    StagedArePositive(cfg, bar, now, v.resting, ScanStart(cfg, marked, bar));
    StagedAreCatalogued(cfg, bar, now, v.resting, ScanStart(cfg, marked, bar));
    var ready := marked.(resting := s.kept, drawn := s.drawn);
    MarkingKeepsMoney(v, a, bar, ready);
    var (settled, fills) := SettleFills(cfg, ready, s.staged, now);
    var (legs, resolved) := ResolveClaims(settled.resting, s.claims, now);
    var funding := AccrueFunding(cfg, settled.(resting := legs), bar, now).1;
    ResolveEvents(settled.resting, s.claims, now);
    var a1 := AppliedAll(a, s.events);
    LifecycleEventsKeepMoney(ready, a, s.events);
    FillsKeepMoney(cfg, ready, a1, s.staged, now);
    var a2 := AppliedAll(a1, fills);
    LifecycleEventsKeepMoney(settled, a2, resolved);
    FundingKeepsMoney(cfg, settled.(resting := legs), AppliedAll(a2, resolved), bar, now);
    AppliedConcat(a, s.events, fills);
    AppliedConcat(a, s.events + fills, resolved);
    AppliedConcat(a, s.events + fills + resolved, funding);
  }

  lemma FundingOnly(cfg: Config, v: Venue, bar: Bar, now: int)
    ensures forall e :: e in AccrueFunding(cfg, v, bar, now).1 ==> e.FundingSettlement?
  {
  }

  lemma ObserveKeepsMoney(cfg: Config, v: Venue, a: Account, bar: Bar, now: int)
    requires MoneyInStep(v, a) && |a.positions| == |cfg.specs| && AllSound(cfg, v.resting)
    ensures var (w, events) := Observed(cfg, v, bar, now);
            MoneyInStep(w, AppliedAll(a, events)) && |AppliedAll(a, events).positions| == |a.positions|
  {
    hide Observed, CheckLiquidation, BeforeClose;
    var (funded, before) := BeforeClose(cfg, v, bar, now);
    ClosedAfter(cfg, v, bar, now);
    BeforeCloseKeepsMoney(cfg, v, a, bar, now);
    LiquidationKeepsMoney(cfg, funded, AppliedAll(a, before), bar, now);
    AppliedConcat(a, before, CheckLiquidation(cfg, funded, bar, now).1);
  }

  lemma MarkingKeepsMoney(v: Venue, a: Account, bar: Bar, ready: Venue)
    requires MoneyInStep(v, a) && ready.shadows == Marked(v, bar).shadows && ready.cash == v.cash
    ensures MoneyInStep(ready, a)
  {
    forall i: nat ensures ShadowOf(ready.shadows, i).Held() == PositionAt(a, i) {
      assert ShadowOf(v.shadows, i).Held() == PositionAt(a, i);
    }
  }

  lemma {:induction false} StagedAreCatalogued(cfg: Config, bar: Bar, now: int, pending: seq<Resting>, start: Scan)
    requires AllSound(cfg, pending) && start.staged == []
    ensures forall f :: f in ScanOrders(cfg, bar, now, pending, start).staged ==> f.instrument < |cfg.specs|
  {
    hide Decide;
    if pending != [] {
      var init, r := pending[..|pending| - 1], pending[|pending| - 1];
      assert pending == init + [r];
      StagedAreCatalogued(cfg, bar, now, init, start);
      DecisionFate(cfg, bar, now, ScanOrders(cfg, bar, now, init, start), r);
    }
  }

  // ---------------------------------------------------------------- the open-order list

  /** What a run of events does to the portfolio's open-order list. */
  function Opens(open: seq<nat>, events: seq<AccountEvent>): seq<nat> {
    if events == [] then
      open
    else
      var before, e := Opens(open, events[..|events| - 1]), events[|events| - 1];
      if e.OrderAccepted? then before + [e.id]
      else if e.Terminal() || e.OrderRejected? then Without(before, e.id)
      else before
  }

  lemma {:induction false} OpenAfter(a: Account, events: seq<AccountEvent>)
    ensures AppliedAll(a, events).open == Opens(a.open, events)
  {
    if events != [] {
      hide Settled;
      var init, e := events[..|events| - 1], events[|events| - 1];
      OpenAfter(a, init);
      if e.Fill? || e.Liquidation? {
        SettledLeavesLists(AppliedAll(a, init), e.instrument, e.side, e.price, e.qty, e.costs);
      }
    }
  }

  ghost predicate Increasing(s: seq<nat>) {
    forall i, j :: 0 <= i < j < |s| ==> s[i] < s[j]
  }

  lemma {:induction false} WithoutIncreasing(s: seq<nat>, x: nat)
    requires Increasing(s)
    ensures Increasing(Without(s, x))
  {
    if s != [] {
      var init := s[..|s| - 1];
      WithoutIncreasing(init, x);
      WithoutElements(init, x);
      var w := Without(init, x);
      forall i | 0 <= i < |w| ensures w[i] < s[|s| - 1] {
        assert w[i] in w && w[i] in init;
      }
    }
  }

  /** Without acknowledgements, an id stays open exactly while no event ends it. */
  lemma {:induction false} OpensMembers(open: seq<nat>, events: seq<AccountEvent>)
    requires Increasing(open) && forall e :: e in events ==> !e.OrderAccepted? && !e.OrderRejected?
    ensures Increasing(Opens(open, events))
    ensures forall id: nat :: id in Opens(open, events) <==> id in open && Terminals(events, id) == 0
  {
    if events != [] {
      var init, e := events[..|events| - 1], events[|events| - 1];
      assert events == init + [e];
      OpensMembers(open, init);
      if e.Terminal() {
        WithoutIncreasing(Opens(open, init), e.id);
        WithoutElements(Opens(open, init), e.id);
      }
      forall id: nat ensures id in Opens(open, events) <==> id in open && Terminals(events, id) == 0 {
        TallyPush(init, e, TerminalOf(id));
        TallyNonNegative(init, TerminalOf(id));
      }
    }
  }

  lemma LastIsGreatest(s: seq<nat>, x: nat)
    requires Increasing(s) && x in s
    ensures x <= s[|s| - 1]
    ensures x in s[..|s| - 1] <==> x != s[|s| - 1]
  {
    var i :| 0 <= i < |s| && s[i] == x;
    assert i < |s| - 1 ==> s[..|s| - 1][i] == x;
  }

  lemma SameMembersSameEmptiness(s: seq<nat>, t: seq<nat>)
    requires forall x :: x in s <==> x in t
    ensures s == [] <==> t == []
  {
    if s != [] { assert s[0] in s; }
    if t != [] { assert t[0] in t; }
  }

  lemma {:induction false} IncreasingUnique(s: seq<nat>, t: seq<nat>)
    requires Increasing(s) && Increasing(t)
    requires forall x :: x in s <==> x in t
    ensures s == t
  {
    SameMembersSameEmptiness(s, t);
    if s != [] {
      var a, b := s[|s| - 1], t[|t| - 1];
      assert a in s && b in t;
      LastIsGreatest(s, b);
      LastIsGreatest(t, a);
      var s', t' := s[..|s| - 1], t[..|t| - 1];
      assert s == s' + [a] && t == t' + [b];
      forall x: nat ensures x in s' <==> x in t' {
        if x in s { LastIsGreatest(s, x); LastIsGreatest(t, x); }
      }
      IncreasingUnique(s', t');
    }
  }

  lemma IdsFacts(resting: seq<Resting>)
    ensures Ascending(resting) ==> Increasing(Ids(resting))
    ensures forall id :: id in Ids(resting) <==> exists r :: r in resting && r.id == id
  {
    forall id ensures id in Ids(resting) <==> exists r :: r in resting && r.id == id {
      if id in Ids(resting) {
        var i :| 0 <= i < |resting| && Ids(resting)[i] == id;
        assert resting[i] in resting;
      }
      if r :| r in resting && r.id == id {
        var i :| 0 <= i < |resting| && resting[i] == r;
        assert Ids(resting)[i] == id;
      }
    }
  }

  lemma ObserveKeepsOpen(cfg: Config, v: Venue, bar: Bar, now: int)
    requires Ascending(v.resting) && AllSound(cfg, v.resting)
    ensures Opens(Ids(v.resting), Observed(cfg, v, bar, now).1) == Ids(Observed(cfg, v, bar, now).0.resting)
  {
    hide Observed, AllSound;
    var (w, events) := Observed(cfg, v, bar, now);
    ObserveObeysBarLaw(cfg, v, bar, now);
    IdsFacts(v.resting);
    IdsFacts(w.resting);
    OpensMembers(Ids(v.resting), events);
    forall id: nat ensures id in Opens(Ids(v.resting), events) <==> id in Ids(w.resting) {
      assert BarTallies(v.resting, w.resting, events, id);
      RestsAtMostOnce(v.resting, id);
      RestsAtMostOnce(w.resting, id);
      TallyNonNegative(events, TerminalOf(id));
    }
    IncreasingUnique(Opens(Ids(v.resting), events), Ids(w.resting));
  }

  lemma {:induction false} WithoutAt(s: seq<nat>, i: nat)
    requires Increasing(s) && i < |s|
    ensures Without(s, s[i]) == s[..i] + s[i + 1..]
  {
    WithoutIncreasing(s, s[i]);
    WithoutElements(s, s[i]);
    var t := s[..i] + s[i + 1..];
    forall x: nat ensures x in Without(s, s[i]) <==> x in t {
      if x in s && x != s[i] {
        var j :| 0 <= j < |s| && s[j] == x;
        assert if j < i then t[j] == x else t[j - 1] == x;
      }
    }
    IncreasingUnique(Without(s, s[i]), t);
  }

  // ---------------------------------------------------------------- whole runs

  ghost predicate InStep(v: Venue, a: Account) {
    MoneyInStep(v, a) && a.open == Ids(v.resting)
  }

  lemma SameMoney(v: Venue, a: Account, w: Venue, b: Account)
    requires MoneyInStep(v, a) && w.shadows == v.shadows && w.cash == v.cash && b.positions == a.positions && b.cash == a.cash
    ensures MoneyInStep(w, b)
  {
    forall i: nat ensures ShadowOf(w.shadows, i).Held() == PositionAt(b, i) {
      assert ShadowOf(v.shadows, i).Held() == PositionAt(a, i);
    }
  }

  lemma AppliedOne(a: Account, e: AccountEvent)
    ensures AppliedAll(a, [e]) == Applied(a, e)
  {
    assert [e][..0] == [];
  }

  lemma SubmitKeepsStep(cfg: Config, orders: map<nat, Order>, v: Venue, log: seq<AccountEvent>, a: Account, op: Op)
    requires op.Submit? && Books(orders, v, log) && op.id !in orders && InStep(v, a)
    ensures var (w, events) := Exec(cfg, v, op); InStep(w, AppliedAll(a, events))
  {
    hide Exec, Books, MoneyInStep;
    SubmitEffect(cfg, v, op);
    RestingWereSubmitted(orders, v, log);
    var (w, events) := Exec(cfg, v, op);
    assert events == [events[0]];
    AppliedOne(a, events[0]);
    WithoutElements(a.open, op.id);
    SameMoney(v, a, w, Applied(a, events[0]));
  }

  lemma CancelKeepsStep(cfg: Config, v: Venue, a: Account, op: Op)
    requires op.Cancel? && InStep(v, a) && Ascending(v.resting)
    ensures var (w, events) := Exec(cfg, v, op); InStep(w, AppliedAll(a, events))
  {
    hide Exec, MoneyInStep, Ids, Ascending;
    CancelEffect(cfg, v, op);
    var (w, events) := Exec(cfg, v, op);
    assert events == [events[0]];
    AppliedOne(a, events[0]);
    SameMoney(v, a, w, Applied(a, events[0]));
    var i := IndexOf(v.resting, op.id);
    if i < |v.resting| { IdsWithout(v.resting, i); }
  }

  lemma IdsWithout(resting: seq<Resting>, i: nat)
    requires i < |resting| && Ascending(resting)
    ensures Without(Ids(resting), resting[i].id) == Ids(resting[..i] + resting[i + 1..])
  {
    IdsFacts(resting);
    WithoutAt(Ids(resting), i);
    assert Ids(resting[..i] + resting[i + 1..]) == Ids(resting)[..i] + Ids(resting)[i + 1..];
  }

  /** The account rebuilt from everything the venue has emitted. */
  function Rebuilt(cfg: Config, cash: int, log: seq<AccountEvent>): Account {
    AppliedAll(NewAccount(|cfg.specs|, cash), log)
  }

  /**
   * In step after every run: the rebuilt account's open orders are the venue's resting ids in the
   * venue's order, its positions are the shadow positions, and its cash is the mirrored balance.
   */
  lemma {:induction false} EveryRunStaysInStep(cfg: Config, cash: int, mirrored: Option<int>, ops: seq<Op>)
    requires FreshIds(ops) && (mirrored.Some? ==> mirrored.value == cash)
    ensures var (v, log) := RunOps(cfg, mirrored, ops);
            InStep(v, Rebuilt(cfg, cash, log)) && |Rebuilt(cfg, cash, log).positions| == |cfg.specs|
  {
    if ops != [] {
      hide Exec, InStep, Books, NewAccount;
      var init, op := ops[..|ops| - 1], ops[|ops| - 1];
      EveryRunStaysInStep(cfg, cash, mirrored, init);
      EveryRunKeepsTheBooks(cfg, mirrored, init);
      var (v, log) := RunOps(cfg, mirrored, init);
      var (w, events) := Exec(cfg, v, op);
      var a := Rebuilt(cfg, cash, log);
      AppliedConcat(NewAccount(|cfg.specs|, cash), log, events);
      AppliedKeepsCatalogue(a, events);
      match op
      case Submit(id, _, _) =>
        SubmissionsAreOlder(init, id);
        SubmitKeepsStep(cfg, Submissions(init), v, log, a, op);
      case Cancel(_, _) => CancelKeepsStep(cfg, v, a, op);
      case Observe(bar, now) => ObserveKeepsStep(cfg, v, a, bar, now);
    }
  }

  lemma {:induction false} AppliedKeepsCatalogue(a: Account, events: seq<AccountEvent>)
    ensures |AppliedAll(a, events).positions| == |a.positions|
  {
    if events != [] {
      hide NextPosition, RealizedBy;
      AppliedKeepsCatalogue(a, events[..|events| - 1]);
    }
  }

  lemma ObserveKeepsStep(cfg: Config, v: Venue, a: Account, bar: Bar, now: int)
    requires InStep(v, a) && |a.positions| == |cfg.specs| && Ascending(v.resting) && AllSound(cfg, v.resting)
    ensures var (w, events) := Exec(cfg, v, Observe(bar, now)); InStep(w, AppliedAll(a, events))
  {
    hide Observed, MoneyInStep;
    ObserveKeepsMoney(cfg, v, a, bar, now);
    ObserveKeepsOpen(cfg, v, bar, now);
    OpenAfter(a, Observed(cfg, v, bar, now).1);
  }
}
