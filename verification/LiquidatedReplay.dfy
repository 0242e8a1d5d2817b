/**
 * A run the comparison cannot match with its replay. The venue liquidates at a threshold that is not
 * positive: a long opened at p and a short opened at q are each liquidated on the bar that opened
 * them, at their own entry, and book nothing. The saved realized profit is zero, but the fills alone
 * realize q - p.
 */
module LiquidatedReplay {
  import opened Prelude
  import opened Trading
  import opened AverageCost
  import opened Exchange
  import opened Portfolio
  import opened Sync
  import opened Engine
  import opened TradeLedger
  import opened Replay
  import opened ReplayCheck
  import opened Liquidations
  import opened RunReplay

  /** One unit bought at p, then one sold at q. */
  function Legs(p: int, q: int): seq<FillRecord> {
    [FillRecord(0, 0, Buy, p, 1, 0, 2), FillRecord(1, 0, Sell, q, 1, 0, 3)]
  }

  datatype Rates = Rates(feeBps: int, slippageBps: nat, impactBps: nat, thresholdBps: int)

  /** A venue with these rates, and every other knob off. */
  function Liquidating(rates: Rates): Config {
    Config([Spec(false, 0)], rates.feeBps, rates.slippageBps, rates.impactBps, 0, None, 0, 0, Some(rates.thresholdBps), None,
           (_: nat) => 0, map[], map[])
  }

  /** At this price slippage and impact come to less than one unit, so to nothing. */
  predicate Unslipped(rates: Rates, price: int) {
    Abs(price) * rates.slippageBps < 10_000 && Abs(price) * rates.impactBps < 10_000
  }

  /** Fills of one unit on instrument 0, at prices that are not zero and do not slip. */
  ghost predicate UnitLegs(rates: Rates, trades: seq<FillRecord>) {
    forall t :: t in trades ==> t.instrument == 0 && t.qty == 1 && t.price != 0 && Unslipped(rates, t.price)
  }

  lemma NothingOf(price: int, bps: nat)
    requires Abs(price) * bps < 10_000
    ensures TruncDiv(price * bps, 10_000) == 0
  {
    MulMonotone(0, Abs(price), bps);
    assert price < 0 ==> price * bps == -(Abs(price) * bps);
  }

  lemma NoSlip(rates: Rates, price: int, side: Side)
    requires Unslipped(rates, price)
    ensures Slipped(Liquidating(rates), price, side) == price && FillPrice(Liquidating(rates), price, side, 1, 1) == price
  {
    NothingOf(price, rates.slippageBps);
    NothingOf(price, rates.impactBps);
    hide TruncDiv;
    assert TruncDiv(0, 10_000) == 0 by { NothingOf(0, 0); }
  }

  // ---------------------------------------------------------------- the venue liquidates what it fills

  /** The account after k legs: flat, nothing realized, nothing booked, the fills as sent. */
  ghost predicate Flattened(trades: seq<FillRecord>, feeBps: int, a: Account, k: nat) {
    && k <= |trades| && a.positions == [FLAT] && a.held == [] && a.realized == 0 && a.liquidationPnl == 0
    && a.fills == Replayed(trades, feeBps)[..k]
  }

  ghost predicate AtRest(trades: seq<FillRecord>, feeBps: int, sys: Sys<int>, k: nat, next: nat) {
    && sys.venue.cash == None && ShadowOf(sys.venue.shadows, 0).Held() == FLAT
    && Flattened(trades, feeBps, sys.account, k)
    && sys.mind == next && sys.gate == Gate(next, [], []) && sys.sink == []
  }

  /** The first k legs are over and the next order, if any, rests. */
  ghost predicate Ready(trades: seq<FillRecord>, feeBps: int, sys: Sys<int>, k: nat) {
    if k < |trades| then AtRest(trades, feeBps, sys, k, k + 1) && sys.venue.resting == [OrderAt(trades, k)]
    else AtRest(trades, feeBps, sys, k, k) && sys.venue.resting == []
  }

  function Opening(cfg: Config, t: FillRecord, k: nat): AccountEvent {
    Fill(k, 0, t.side, t.price, 1, FeeCosts(cfg, 0, t.price, 1), true, t.ts)
  }

  function Closing(cfg: Config, t: FillRecord): AccountEvent {
    Liquidation(0, t.side.Opposite(), t.price, 1, FeeCosts(cfg, 0, t.price, 1), t.ts)
  }

  function LegBar(t: FillRecord): Bar {
    FlatBar(0, t.ts, t.price, 1)
  }

  /** The fill moves the shadow from flat to one unit at the price, and the liquidation back to flat. */
  lemma ThereAndBack(s: Shadow, side: Side, price: int)
    requires s.Held() == FLAT
    ensures var entered := ApplyShadow(s, side, price, 1);
            && entered.Held() == Position(side.Sign(), price)
            && ApplyShadow(entered, side.Opposite(), price, 1).Held() == FLAT
  {
    ShadowTransition(s, side, price, 1);
    OpenedAtPrice(side.Sign(), price);
    ShadowTransition(ApplyShadow(s, side, price, 1), side.Opposite(), price, 1);
    hide ApplyShadow, AverageEntry;
  }

  /** At its own entry nothing has moved against the position, which is enough for a threshold of zero or less. */
  lemma LiquidatedAtEntry(rates: Rates, v: Venue, t: FillRecord)
    requires rates.thresholdBps <= 0 && t.price != 0 && Unslipped(rates, t.price) && ShadowOf(v.shadows, 0).Held() == Position(t.side.Sign(), t.price) && v.resting == []
    ensures var cfg := Liquidating(rates);
            CheckLiquidation(cfg, v, LegBar(t), t.ts)
            == (SettleOne(cfg, v, Staged(0, 0, t.side.Opposite(), t.price, 1, true)), [Closing(cfg, t)])
  {
    var cfg, shadow := Liquidating(rates), ShadowOf(v.shadows, 0);
    assert MustLiquidate(cfg, shadow, t.price) by { NoMove(Abs(t.price)); }
    NoSlip(rates, t.price, t.side.Opposite());
    hide MustLiquidate, SettleOne, FeeCosts, Slipped;
    assert DropInstrument([], 0, t.ts) == ([], []);
    assert [Closing(cfg, t)] + [] == [Closing(cfg, t)];
  }

  lemma NoMove(avg: int)
    requires avg > 0
    ensures 0 * 10_000 / Max(avg, 1) == 0
  {
  }

  /** The pass over the lone order stages it whole at the open. */
  lemma LegIsStaged(rates: Rates, v: Venue, trades: seq<FillRecord>, k: nat)
    requires UnitLegs(rates, trades) && k < |trades| && v.resting == [OrderAt(trades, k)]
    ensures var t := trades[k];
            ScanBar(Liquidating(rates), v, LegBar(t), t.ts)
            == Scan([], [], [Staged(k, 0, t.side, t.price, 1, true)], [], ShadowOf(v.shadows, 0).net + t.side.Sign(), None, v.drawn)
  {
    assert trades[k] in trades;
    var cfg, t, r := Liquidating(rates), trades[k], OrderAt(trades, k);
    var start := ScanStart(cfg, v, LegBar(t));
    var d := Decision(false, None, None, Some(Staged(k, 0, t.side, t.price, 1, true)), 1, false);
    NoSlip(rates, t.price, t.side);
    hide FillPrice;
    assert Decide(cfg, LegBar(t), t.ts, start, r) == d;
    ScanSingle(cfg, LegBar(t), t.ts, r, start);
    hide ScanOrders, Decide;
    assert Advance(start, r, d, t.ts).staged == [Staged(k, 0, t.side, t.price, 1, true)];
  }

  /** The bar fills the resting leg and liquidates it. */
  lemma BarLiquidatesLeg(rates: Rates, trades: seq<FillRecord>, v: Venue, k: nat)
    requires rates.thresholdBps <= 0 && UnitLegs(rates, trades) && k < |trades| && v.resting == [OrderAt(trades, k)] && v.cash == None
    requires ShadowOf(v.shadows, 0).Held() == FLAT
    ensures var cfg, t := Liquidating(rates), trades[k];
            var (w, events) := Observed(cfg, v, LegBar(t), t.ts);
            && events == [Opening(cfg, t, k), Closing(cfg, t)]
            && w.resting == [] && w.cash == None && ShadowOf(w.shadows, 0).Held() == FLAT
  {
    assert trades[k] in trades;
    var cfg, t := Liquidating(rates), trades[k];
    var bar := LegBar(t);
    var marked := Marked(v, bar);
    var f := Staged(k, 0, t.side, t.price, 1, true);
    LegIsStaged(rates, marked, trades, k);
    var ready := marked.(resting := [], drawn := marked.drawn);
    SettleSingle(cfg, ready, f, t.ts);
    var entered := SettleOne(cfg, ready, f);
    ThereAndBack(ShadowOf(ready.shadows, 0), t.side, t.price);
    assert ShadowOf(entered.shadows, 0).Held() == Position(t.side.Sign(), t.price) && entered.resting == [] && entered.cash == None
      by { hide ApplyShadow, FeeCosts; }
    LiquidatedAtEntry(rates, entered, t);
    hide ScanOrders, SettleFills, CheckLiquidation, ApplyShadow, FeeCosts;
    assert AccrueFunding(cfg, entered, bar, t.ts) == (entered, []);
    assert [] + [Opening(cfg, t, k)] + [] + [] + [Closing(cfg, t)] == [Opening(cfg, t, k), Closing(cfg, t)];
  }

  // ---------------------------------------------------------------- the account

  /** Opening a unit and being liquidated at its price leaves only costs and the fill record behind. */
  lemma LegLeavesRecord(a: Account, costs: seq<int>, id: nat, side: Side, price: int, ts: int)
    requires a.positions == [FLAT] && a.held == []
    ensures var b := Applied(Applied(a, Fill(id, 0, side, price, 1, costs, true, ts)), Liquidation(0, side.Opposite(), price, 1, costs, ts));
            && b.positions == [FLAT] && b.held == [] && b.realized == a.realized && b.liquidationPnl == a.liquidationPnl
            && b.fills == a.fills + [FillRecord(id, 0, side, price, 1, Total(costs), ts)]
  {
    OpenedAtPrice(side.Sign(), price);
    assert [0][..0] == [];
    hide AverageEntry, Total;
    var entered := Applied(a, Fill(id, 0, side, price, 1, costs, true, ts));
    assert entered.positions == [Position(side.Sign(), price)] && entered.held == [0];
    var signed := side.Opposite().Sign();
    assert NextPosition(entered.positions[0], signed, price) == FLAT && RealizedBy(entered.positions[0], signed, price) == 0;
    hide NextPosition, RealizedBy;
  }

  lemma LegFee(rates: Rates, price: int)
    ensures Total(FeeCosts(Liquidating(rates), 0, price, 1)) == MulBps(price * 1, rates.feeBps)
  {
    FeeIsCharged(Liquidating(rates), 0, price, 1);
  }

  lemma LegIsBooked(rates: Rates, trades: seq<FillRecord>, a: Account, k: nat)
    requires UnitLegs(rates, trades) && k < |trades| && Flattened(trades, rates.feeBps, a, k)
    ensures var cfg, t := Liquidating(rates), trades[k];
            Flattened(trades, rates.feeBps, Applied(Applied(a, Opening(cfg, t, k)), Closing(cfg, t)), k + 1)
  {
    assert trades[k] in trades;
    var t := trades[k];
    LegFee(rates, t.price);
    hide MulBps, FeeCosts, Total, Applied;
    LegLeavesRecord(a, FeeCosts(Liquidating(rates), 0, t.price, 1), k, t.side, t.price, t.ts);
    PrefixStep(Replayed(trades, rates.feeBps), k);
  }

  // ---------------------------------------------------------------- the engine

  lemma DrainTwo(cfg: Config, trades: seq<FillRecord>, sys: Sys<int>, e: AccountEvent, f: AccountEvent, now: int)
    requires sys.sink == [e, f] && sys.gate.pending == []
    ensures Drained(cfg, StrategyOf(trades), sys, now) == Some(sys.(account := Applied(Applied(sys.account, e), f), sink := []))
  {
    hide Called, Routed, Applied;
    var one := sys.(account := Applied(sys.account, e));
    var two := one.(account := Applied(one.account, f));
    HandledQuietly(cfg, trades, sys, e, now);
    HandledQuietly(cfg, trades, one, f, now);
    hide Handled, StrategyOf;
    assert DrainedFrom(cfg, StrategyOf(trades), two, 2, now) == Some(two.(sink := []));
    assert DrainedFrom(cfg, StrategyOf(trades), one, 1, now) == Some(two.(sink := []));
  }

  lemma HandledQuietly(cfg: Config, trades: seq<FillRecord>, sys: Sys<int>, e: AccountEvent, now: int)
    requires sys.gate.pending == []
    ensures Handled(cfg, StrategyOf(trades), sys, e, now) == sys.(account := Applied(sys.account, e))
  {
    hide Called, Routed, Applied;
    var applied := sys.(account := Applied(sys.account, e));
    QuietCallback(trades, applied, OnSpecific(e), now);
    QuietCallback(trades, applied, OnAccount(e), now);
    NothingToRoute(cfg, applied, now);
  }

  /** The bar of leg k. */
  lemma LegStep(rates: Rates, trades: seq<FillRecord>, sys: Sys<int>, k: nat)
    requires rates.thresholdBps <= 0 && UnitLegs(rates, trades) && k < |trades| && Ready(trades, rates.feeBps, sys, k)
    ensures var cfg, t := Liquidating(rates), trades[k];
            var filled := Drained(cfg, StrategyOf(trades), Executed(cfg, sys, Observe(LegBar(t), t.ts)), t.ts);
            filled.Some? && AtRest(trades, rates.feeBps, filled.value, k + 1, k + 1) && filled.value.venue.resting == []
  {
    var cfg, t := Liquidating(rates), trades[k];
    BarLiquidatesLeg(rates, trades, sys.venue, k);
    LegIsBooked(rates, trades, sys.account, k);
    hide Observed, Applied, Liquidating, Drained, FeeCosts, StrategyOf, Replayed, Flattened;
    var executed := Executed(cfg, sys, Observe(LegBar(t), t.ts));
    assert executed.sink == [Opening(cfg, t, k), Closing(cfg, t)];
    DrainTwo(cfg, trades, executed, Opening(cfg, t, k), Closing(cfg, t), t.ts);
  }

  /** A bar that meets an empty book and a flat position leaves them so. */
  lemma EmptyBar(rates: Rates, v: Venue, bar: Bar, now: int)
    requires v.resting == [] && v.cash == None && ShadowOf(v.shadows, 0).Held() == FLAT && bar.instrument == 0
    ensures var (w, events) := Observed(Liquidating(rates), v, bar, now);
            events == [] && w.resting == [] && w.cash == None && ShadowOf(w.shadows, 0).Held() == FLAT
  {
  }

  /** So does the lead-in bar. */
  lemma LeadInStep(rates: Rates, trades: seq<FillRecord>, sys: Sys<int>, bar: Bar)
    requires AtRest(trades, rates.feeBps, sys, 0, 0) && sys.venue.resting == [] && bar.instrument == 0
    ensures var cfg := Liquidating(rates);
            var filled := Drained(cfg, StrategyOf(trades), Executed(cfg, sys, Observe(bar, bar.ts)), bar.ts);
            filled.Some? && AtRest(trades, rates.feeBps, filled.value, 0, 0) && filled.value.venue.resting == []
  {
    var cfg := Liquidating(rates);
    EmptyBar(rates, sys.venue, bar, bar.ts);
    hide Observed, Liquidating, Drained, StrategyOf, Flattened;
    var executed := Executed(cfg, sys, Observe(bar, bar.ts));
    assert executed.sink == [];
    NothingToDrain(cfg, trades, executed, bar.ts);
  }

  lemma LegIsAccepted(rates: Rates, trades: seq<FillRecord>, v: Venue, k: nat, now: int)
    requires UnitLegs(rates, trades) && k < |trades| && v.resting == [] && v.cash == None
    ensures var (w, events) := Submitted(Liquidating(rates), v, k, OrderAt(trades, k).order, now);
            w == v.(resting := [OrderAt(trades, k)]) && events == [OrderAccepted(k, now)]
  {
    assert trades[k] in trades;
  }

  lemma AcceptanceIsQuiet(trades: seq<FillRecord>, feeBps: int, a: Account, k: nat, id: nat, now: int)
    requires Flattened(trades, feeBps, a, k)
    ensures Flattened(trades, feeBps, Applied(a, OrderAccepted(id, now)), k)
  {
  }

  lemma NextIsRouted(rates: Rates, trades: seq<FillRecord>, sys: Sys<int>, k: nat, now: int)
    requires UnitLegs(rates, trades) && k < |trades| && sys.venue.resting == []
    requires AtRest(trades, rates.feeBps, sys.(gate := Gate(k + 1, [], [])), k, k + 1)
    requires sys.gate == Gate(k + 1, [Place(k, OrderAt(trades, k).order)], [])
    ensures var done := RouteAndDrain(Liquidating(rates), StrategyOf(trades), sys, now);
            done.Some? && Ready(trades, rates.feeBps, done.value, k)
  {
    var cfg := Liquidating(rates);
    RouteOne(cfg, sys, Place(k, OrderAt(trades, k).order), now);
    LegIsAccepted(rates, trades, sys.venue, k, now);
    AcceptanceIsQuiet(trades, rates.feeBps, sys.account, k, k, now);
    hide StrategyOf, Liquidating, Submitted, Replayed, Drained, Routed, Flattened;
    var routed := Routed(cfg, sys, now);
    assert routed.sink == [OrderAccepted(k, now)];
    DrainOne(cfg, trades, routed, OrderAccepted(k, now), now);
  }

  /** After the bar the strategy sends the next leg, which rests. */
  lemma DecisionStep(rates: Rates, trades: seq<FillRecord>, sys: Sys<int>, k: nat, bar: Bar)
    requires UnitLegs(rates, trades) && AtRest(trades, rates.feeBps, sys, k, k) && sys.venue.resting == []
    ensures var done := Decided(Liquidating(rates), StrategyOf(trades), sys, bar);
            done.Some? && Ready(trades, rates.feeBps, done.value, k)
  {
    hide StrategyOf, Liquidating, Pushed, Called, RouteAndDrain, MarksOf, Equity, Decided, Flattened;
    var cfg, strategy := Liquidating(rates), StrategyOf(trades);
    var pushed := sys.(market := Pushed(sys.market, bar));
    var called := Called(strategy, pushed, OnBar(bar), bar.ts);
    DecidedPlainly(cfg, trades, sys, bar, called);
    var counted := called.(bars := called.bars + 1);
    LegsBound(trades, rates.feeBps, sys.account, k);
    if k < |trades| {
      CallNext(trades, pushed, k, bar);
      NextIsRouted(rates, trades, counted, k, bar.ts);
    } else {
      QuietCallback(trades, pushed, OnBar(bar), bar.ts);
      RouteNothing(cfg, trades, counted, bar.ts);
    }
  }

  lemma LegsBound(trades: seq<FillRecord>, feeBps: int, a: Account, k: nat)
    requires Flattened(trades, feeBps, a, k)
    ensures k <= |trades|
  {
  }

  lemma BarStepLiquidates(rates: Rates, trades: seq<FillRecord>, sys: Sys<int>, j: nat)
    requires rates.thresholdBps <= 0 && UnitLegs(rates, trades) && trades != [] && j <= |trades|
    requires if j == 0 then AtRest(trades, rates.feeBps, sys, 0, 0) && sys.venue.resting == [] else Ready(trades, rates.feeBps, sys, j - 1)
    ensures var next := Stepped(Liquidating(rates), StrategyOf(trades), sys, FeedOf(trades)[j]);
            next.Some? && Ready(trades, rates.feeBps, next.value, j)
  {
    hide Drained, Executed, Decided, Liquidating, StrategyOf, AtRest;
    assert forall i :: 0 <= i < |trades| ==> trades[i] in trades;
    var bar := FeedOf(trades)[j].bar;
    if j == 0 {
      LeadInStep(rates, trades, sys, bar);
    } else {
      assert bar == LegBar(trades[j - 1]);
      LegStep(rates, trades, sys, j - 1);
    }
    var cfg := Liquidating(rates);
    var filled := Drained(cfg, StrategyOf(trades), Executed(cfg, sys, Observe(bar, bar.ts)), bar.ts).value;
    DecisionStep(rates, trades, filled, j, bar);
  }

  lemma StartSettled(rates: Rates, trades: seq<FillRecord>)
    ensures var sys := Started(Liquidating(rates), StrategyOf(trades), 0, None);
            sys.Some? && AtRest(trades, rates.feeBps, sys.value, 0, 0) && sys.value.venue.resting == []
  {
    var cfg := Liquidating(rates);
    var blank := Fresh(cfg, StrategyOf(trades), 0, None);
    QuietCallback(trades, blank, OnStart, 0);
    RouteNothing(cfg, trades, blank, 0);
  }

  lemma {:induction false} FeedLiquidates(rates: Rates, trades: seq<FillRecord>, j: nat)
    requires rates.thresholdBps <= 0 && UnitLegs(rates, trades) && trades != [] && j <= |FeedOf(trades)|
    ensures var sys := Ran(Liquidating(rates), StrategyOf(trades), 0, None, FeedOf(trades)[..j]);
            && sys.Some?
            && if j == 0 then AtRest(trades, rates.feeBps, sys.value, 0, 0) && sys.value.venue.resting == []
               else Ready(trades, rates.feeBps, sys.value, j - 1)
  {
    hide Started, Stepped, Ready, AtRest, Liquidating, StrategyOf;
    if j == 0 {
      StartSettled(rates, trades);
    } else {
      FeedLiquidates(rates, trades, j - 1);
      PrefixStep(FeedOf(trades), j - 1);
      BarStepLiquidates(rates, trades, Ran(Liquidating(rates), StrategyOf(trades), 0, None, FeedOf(trades)[..j - 1]).value, j - 1);
    }
  }

  lemma StopStep(rates: Rates, trades: seq<FillRecord>, sys: Sys<int>, now: int)
    requires AtRest(trades, rates.feeBps, sys, |trades|, |trades|)
    ensures Stopped(Liquidating(rates), StrategyOf(trades), sys, now) == Some(sys)
  {
    NoTimers(trades, sys, now);
    QuietCallback(trades, sys, OnStop, now);
    RouteNothing(Liquidating(rates), trades, sys, now);
    hide TimersFired, Called, RouteAndDrain;
  }

  lemma LastIsAtRest(rates: Rates, trades: seq<FillRecord>, sys: Sys<int>)
    requires Ready(trades, rates.feeBps, sys, |trades|)
    ensures AtRest(trades, rates.feeBps, sys, |trades|, |trades|) && Flattened(trades, rates.feeBps, sys.account, |trades|)
  {
    hide Flattened;
  }

  /** The whole run: every leg filled, liquidated at its entry, nothing realized. */
  lemma LegsRun(rates: Rates, trades: seq<FillRecord>)
    requires rates.thresholdBps <= 0 && UnitLegs(rates, trades) && trades != []
    ensures var run := Finished(Liquidating(rates), StrategyOf(trades), 0, None, FeedOf(trades));
            run.Some? && Flattened(trades, rates.feeBps, run.value.account, |trades|)
  {
    hide Ran, Stopped, FeedOf, Liquidating, StrategyOf, Flattened, AtRest, Ready, UnitLegs;
    var feed := FeedOf(trades);
    FeedCount(trades);
    FeedLiquidates(rates, trades, |feed|);
    var ran := Ran(Liquidating(rates), StrategyOf(trades), 0, None, feed).value;
    LastIsAtRest(rates, trades, ran);
    StopStep(rates, trades, ran, if feed == [] then 0 else feed[|feed| - 1].Ts());
  }

  // ---------------------------------------------------------------- the verdict

  /** Bought at p and sold at q, the fills alone realize the difference. */
  lemma LegsRealize(p: int, q: int, feeBps: int)
    ensures TradedAll(EMPTY, Replayed(Legs(p, q), feeBps)).realized == q - p
  {
    var fills := Replayed(Legs(p, q), feeBps);
    var first := Ledger(map[0 := Position(1, p)], 0);
    assert TradedAll(EMPTY, []) == EMPTY;
    OpenedAtPrice(1, p);
    hide AverageEntry, TradedAll, MulBps;
    assert Traded(EMPTY, fills[0]) == first && Traded(first, fills[1]).realized == q - p;
    hide Traded;
    TradedPush(EMPTY, [], fills[0]);
    TradedPush(EMPTY, [fills[0]], fills[1]);
    assert [] + [fills[0]] == [fills[0]] && [fills[0]] + [fills[1]] == fills;
  }

  lemma LegsInOrder(p: int, q: int)
    ensures InBarOrder(FeedOf(Legs(p, q)))
    ensures p >= 0 && q >= 0 ==> BarsCloseNonNegative(FeedOf(Legs(p, q)))
  {
  }

  /** The run that opens the two legs. */
  function FreeRun(rates: Rates, p: int, q: int): Option<Sys<int>> {
    Finished(Liquidating(rates), StrategyOf(Legs(p, q)), 0, None, FeedOf(Legs(p, q)))
  }

  lemma FreeRunIsFlat(rates: Rates, p: int, q: int)
    requires rates.thresholdBps <= 0 && p != 0 && q != 0 && Unslipped(rates, p) && Unslipped(rates, q)
    ensures var run := FreeRun(rates, p, q);
            && run.Some? && run.value.account.liquidationPnl == 0 && run.value.account.realized == 0
            && run.value.account.fills == Replayed(Legs(p, q), rates.feeBps)
  {
    assert UnitLegs(rates, Legs(p, q));
    LegsRun(rates, Legs(p, q));
    hide Finished, FeedOf, StrategyOf;
  }

  lemma FreeRunVerdict(rates: Rates, p: int, q: int)
    ensures var run := FreeRun(rates, p, q);
            run.Some? ==>
              var report := run.value.account;
              var own := TradedAll(EMPTY, report.fills).realized;
              Reports(run.value, rates.feeBps,
                      if Liquidated(run.value.log) && report.liquidationPnl == 0 && report.realized != own
                      then [RealizedPnl(report.realized, own)] else [])
              && (report.realized != own ==> Liquidated(run.value.log))
  {
    LegsInOrder(p, q);
    hide Finished, FeedOf, StrategyOf, Liquidated, Reports, Legs, TradedAll, InBarOrder;
    EveryRunReplays(Liquidating(rates), 0, None, StrategyOf(Legs(p, q)), FeedOf(Legs(p, q)));
  }

  /**
   * The failing run, for every fee, every threshold of zero or less, and every two different prices
   * at which slippage and impact come to nothing: it completes, was liquidated, books no liquidation profit, and differs from its replay.
   */
  lemma FreeLiquidationIsReported(rates: Rates, p: int, q: int)
    requires rates.thresholdBps <= 0 && p != 0 && q != 0 && p != q && Unslipped(rates, p) && Unslipped(rates, q)
    ensures var run := FreeRun(rates, p, q);
            && run.Some? && run.value.account.liquidationPnl == 0 && Liquidated(run.value.log)
            && Reports(run.value, rates.feeBps, [RealizedPnl(0, q - p)])
  {
    hide FreeRun, Liquidated, Reports, Replayed, Legs, TradedAll;
    FreeRunIsFlat(rates, p, q);
    FreeRunVerdict(rates, p, q);
    LegsRealize(p, q, rates.feeBps);
  }

  /**
   * On such a venue, with slippage and impact below a half, every run over non-negative closes in time
   * order matches its replay exactly when the threshold is positive.
   */
  lemma MatchesExactlyAboveZero(rates: Rates)
    requires rates.slippageBps < 5_000 && rates.impactBps < 5_000
    ensures rates.thresholdBps > 0 <==> EveryRunMatches(Liquidating(rates))
  {
    hide Finished, Reports, StrategyOf, FeedOf, InBarOrder, BarsCloseNonNegative, Liquidated;
    var cfg := Liquidating(rates);
    if rates.thresholdBps > 0 {
      forall strategy: Strategy<int>, events: seq<Event> | InBarOrder(events) && BarsCloseNonNegative(events)
        ensures RunMatches(cfg, strategy, events)
      {
        PositiveThresholdsMatch(cfg, 0, None, strategy, events);
      }
    } else {
      FreeLiquidationIsReported(rates, 1, 2);
      LegsInOrder(1, 2);
      ReportsOnce(FreeRun(rates, 1, 2).value, rates.feeBps, [RealizedPnl(0, 1)]);
      assert !RunMatches(cfg, StrategyOf(Legs(1, 2)), FeedOf(Legs(1, 2)));
    }
  }

  lemma ReportsOnce(run: Sys<int>, feeBps: int, issues: seq<Issue>)
    requires Reports(run, feeBps, issues) && issues != []
    ensures !Reports(run, feeBps, [])
  {
  }

  ghost predicate RunMatches(cfg: Config, strategy: Strategy<int>, events: seq<Event>) {
    var run := Finished(cfg, strategy, 0, None, events);
    run.Some? ==> Reports(run.value, cfg.feeBps, [])
  }

  ghost predicate EveryRunMatches(cfg: Config) {
    forall strategy: Strategy<int>, events: seq<Event> ::
      InBarOrder(events) && BarsCloseNonNegative(events) ==> RunMatches(cfg, strategy, events)
  }
}
