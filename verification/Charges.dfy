/**
 * What the venue admits and what it charges for holding, stated from outside its arithmetic: which
 * orders are accepted, that no position outlives its liquidation threshold, and that funding falls
 * due on a fixed cadence.
 */
module Charges {
  import opened Prelude
  import opened Trading
  import opened AverageCost
  import opened Exchange
  import opened Lifecycle
  import opened Sync
  import opened FillCosts

  // ---------------------------------------------------------------- admission

  /** An order the venue can work at all. */
  predicate Workable(cfg: Config, order: Order) {
    && order.instrument < |cfg.specs| && order.qty > 0
    && (order.kind.Passive() ==> Abs(order.kind.limit * order.qty) >= cfg.specs[order.instrument].minNotional)
    && (order.postOnly ==> order.kind.Passive())
  }

  /** A reduce-only order needs a position on the other side. */
  predicate HasSomethingToReduce(v: Venue, order: Order) {
    order.reduceOnly ==> Reducible(ShadowOf(v.shadows, order.instrument).net, order.side) > 0
  }

  /** With the order resting, mirrored cash still covers what is reserved for all resting buys. */
  ghost predicate Affordable(cfg: Config, v: Venue, id: nat, order: Order) {
    var rested := v.resting + [Resting(id, order, cfg.latencyBars, false, None, 0)];
    v.cash.Some? && BuyCost(cfg, v.shadows, order, order.qty).Some? ==> Reserved(cfg, v.shadows, rested) <= v.cash.value
  }

  /**
   * An order is accepted exactly when it can be worked, has something to reduce if it must, and can
   * be afforded beside everything already resting; otherwise it is told the first of these it lacks.
   */
  lemma AdmittedExactlyWhen(cfg: Config, v: Venue, id: nat, order: Order, now: int)
    ensures var (w, events) := Submitted(cfg, v, id, order, now);
            if !Workable(cfg, order) then w == v && events == [OrderRejected(id, InvalidOrder, now)]
            else if !HasSomethingToReduce(v, order) then w == v && events == [OrderRejected(id, WouldIncreasePosition, now)]
            else if !Affordable(cfg, v, id, order) then w == v && events == [OrderRejected(id, InsufficientFunds, now)]
            else events == [OrderAccepted(id, now)] && w == v.(resting := v.resting + [Resting(id, order, cfg.latencyBars, false, None, 0)])
  {
    TallyPush(v.resting, Resting(id, order, cfg.latencyBars, false, None, 0), ReserveOf(cfg, v.shadows));
    hide BuyCost, Tally;
  }

  // ---------------------------------------------------------------- the close of a bar

  /** The position a bar's fills leave, which funding is charged on. */
  ghost function NetAfterFills(cfg: Config, v: Venue, bar: Bar, now: int): int {
    var marked := Marked(v, bar);
    var s := ScanBar(cfg, marked, bar, now);
    ShadowOf(SettleFills(cfg, marked.(resting := s.kept, drawn := s.drawn), s.staged, now).0.shadows, bar.instrument).net
  }

  lemma {:induction false} SettlingKeepsCounters(cfg: Config, v: Venue, staged: seq<Staged>, now: int, i: nat)
    ensures ShadowOf(SettleFills(cfg, v, staged, now).0.shadows, i).bars == ShadowOf(v.shadows, i).bars
  {
    if staged != [] {
      hide FeeCosts, SettledCash, AverageEntry;
      SettlingKeepsCounters(cfg, v, staged[..|staged| - 1], now, i);
    }
  }

  /** A bar settles and liquidates the position its fills leave, and does neither before that. */
  lemma ClosingOfBar(cfg: Config, v: Venue, bar: Bar, now: int) returns (w: Venue)
    requires AllSound(cfg, v.resting)
    ensures ShadowOf(w.shadows, bar.instrument).bars == ShadowOf(v.shadows, bar.instrument).bars
    ensures ShadowOf(w.shadows, bar.instrument).net == NetAfterFills(cfg, v, bar, now)
    ensures var (funded, funding) := AccrueFunding(cfg, w, bar, now);
            var (final, liquidated) := CheckLiquidation(cfg, funded, bar, now);
            && Observed(cfg, v, bar, now).0 == final
            && exists before :: Observed(cfg, v, bar, now).1 == before + funding + liquidated && OrdersOnly(before)
  {
    hide ScanOrders, SettleFills, AccrueFunding, CheckLiquidation, ResolveClaims, FeeCosts;
    var marked := Marked(v, bar);
    var start := ScanStart(cfg, marked, bar);
    var s := ScanBar(cfg, marked, bar, now);
    var ready := marked.(resting := s.kept, drawn := s.drawn);
    var (settled, fills) := SettleFills(cfg, ready, s.staged, now);
    var (legs, resolved) := ResolveClaims(settled.resting, s.claims, now);
    w := settled.(resting := legs);
    ScanEvents(cfg, bar, now, v.resting, start);
    SettlingKeepsCounters(cfg, ready, s.staged, now, bar.instrument);
    OnlyFills(cfg, ready, s.staged, now);
    ResolveEvents(settled.resting, s.claims, now);
    assert OrdersOnly(s.events + fills + resolved);
  }

  ghost predicate OrdersOnly(events: seq<AccountEvent>) {
    forall e :: e in events ==> !e.FundingSettlement? && !e.Liquidation?
  }

  // ---------------------------------------------------------------- liquidation

  /** The loss per unit of an open position, never negative. */
  function AdverseMove(net: int, avg: int, mark: int): nat {
    Max(if net > 0 then avg - mark else mark - avg, 0)
  }

  /** The threshold, without its rounding: the move, in basis points of the entry, has reached it. */
  lemma LiquidatedAtTheThreshold(cfg: Config, shadow: Shadow, mark: int, bps: nat)
    requires cfg.liquidationBps == Some(bps) && shadow.net != 0 && shadow.avg != 0
    ensures MustLiquidate(cfg, shadow, mark) <==> AdverseMove(shadow.net, shadow.avg, mark) * 10_000 >= bps * Abs(shadow.avg)
  {
    var a, b := AdverseMove(shadow.net, shadow.avg, mark) * 10_000, Abs(shadow.avg);
    var q := a / b;
    if q >= bps {
      MulMonotone(bps, q, b);
    } else {
      MulMonotone(q + 1, bps, b);
      assert (q + 1) * b == q * b + b;
    }
    assert MustLiquidate(cfg, shadow, mark) <==> q >= bps;
  }

  /** Liquidation closes the whole position and cancels what rests on its instrument, and nothing else. */
  lemma LiquidationCloses(cfg: Config, v: Venue, bar: Bar, now: int)
    ensures var w := CheckLiquidation(cfg, v, bar, now).0;
            MustLiquidate(cfg, ShadowOf(v.shadows, bar.instrument), bar.close) ==>
              && ShadowOf(w.shadows, bar.instrument).Held() == FLAT
              && w.resting == DropInstrument(v.resting, bar.instrument, now).0
  {
    hide DropInstrument, Slipped, FeeCosts, AverageEntry;
  }

  /** The closing trade: the whole position, at the close with slippage against it, and charged the fee. */
  ghost predicate IsClosing(cfg: Config, bar: Bar, now: int, net: int, e: AccountEvent) {
    && e.Liquidation? && e.instrument == bar.instrument && e.ts == now
    && net != 0 && e.qty == Abs(net) && e.side == (if net > 0 then Sell else Buy)
    && (exists slip :: Truncates(slip, bar.close * cfg.slippageBps) && e.price == bar.close + e.side.Sign() * slip)
    && (bar.instrument < |cfg.specs| ==> IsFee(cfg, e.costs, e.price * e.qty))
  }

  lemma ClosingIsPriced(cfg: Config, v: Venue, bar: Bar, now: int)
    ensures var (w, events) := CheckLiquidation(cfg, v, bar, now);
            forall e :: e in events && e.Liquidation? ==> IsClosing(cfg, bar, now, ShadowOf(v.shadows, bar.instrument).net, e)
  {
    var shadow := ShadowOf(v.shadows, bar.instrument);
    var f := LiquidationFill(cfg, shadow, bar);
    var slip := SlippageIsExact(cfg, bar.close, f.side);
    if bar.instrument < |cfg.specs| { FeeIsExact(cfg, bar.instrument, f.price, f.qty); }
    DroppedEvents(v.resting, bar.instrument, now);
    hide Slipped, FeeCosts, DropInstrument, Truncates, IsFee, SettleOne;
  }

  /** A bar liquidates, if at all, the position its fills leave, and charges exactly that. */
  lemma LiquidationIsPriced(cfg: Config, v: Venue, bar: Bar, now: int)
    requires AllSound(cfg, v.resting)
    ensures forall e :: e in Observed(cfg, v, bar, now).1 && e.Liquidation? ==> IsClosing(cfg, bar, now, NetAfterFills(cfg, v, bar, now), e)
  {
    hide Observed, NetAfterFills, IsClosing, CheckLiquidation, AllSound, AccrueFunding;
    var w := ClosingOfBar(cfg, v, bar, now);
    ClosingIsPriced(cfg, AccrueFunding(cfg, w, bar, now).0, bar, now);
    FundingOnly(cfg, w, bar, now);
    FundingKeepsNet(cfg, w, bar, now);
  }

  lemma FundingKeepsNet(cfg: Config, v: Venue, bar: Bar, now: int)
    ensures ShadowOf(AccrueFunding(cfg, v, bar, now).0.shadows, bar.instrument).net == ShadowOf(v.shadows, bar.instrument).net
  {
    hide MulRate, FundingRateAt;
  }

  /** No position outlives its threshold: after every bar, what is still open on it need not be liquidated. */
  lemma NoPositionOutlivesItsThreshold(cfg: Config, v: Venue, bar: Bar, now: int)
    requires AllSound(cfg, v.resting)
    ensures var (w, events) := Observed(cfg, v, bar, now);
            && !MustLiquidate(cfg, ShadowOf(w.shadows, bar.instrument), bar.close)
            && ((exists e :: e in events && e.Liquidation?) ==>
                  && ShadowOf(w.shadows, bar.instrument).Held() == FLAT
                  && forall r :: r in w.resting ==> r.order.instrument != bar.instrument)
  {
    hide Observed, AccrueFunding, DropInstrument, NetAfterFills, MustLiquidate;
    var w := ClosingOfBar(cfg, v, bar, now);
    var funded := AccrueFunding(cfg, w, bar, now).0;
    LiquidationCloses(cfg, funded, bar, now);
    DroppedElements(funded.resting, bar.instrument, now);
    FundingOnly(cfg, w, bar, now);
    FlatIsSafe(cfg, ShadowOf(Observed(cfg, v, bar, now).0.shadows, bar.instrument), bar.close);
    hide CheckLiquidation;
  }

  lemma FlatIsSafe(cfg: Config, shadow: Shadow, mark: int)
    ensures shadow.Held() == FLAT ==> !MustLiquidate(cfg, shadow, mark)
  {
  }


  // ---------------------------------------------------------------- funding

  /** Bars between two settlements of the instrument's funding; zero when it has none. */
  function FundingEvery(cfg: Config, i: nat): nat {
    if i < |cfg.specs| && cfg.specs[i].perpetual then
      (if i in cfg.intervals then cfg.intervals[i] else cfg.fundingInterval)
    else
      0
  }

  function BarsOf(i: nat): Op -> int {
    (op: Op) => if op.Observe? && op.bar.instrument == i then 1 else 0
  }

  /** Bars of the instrument seen over a run. */
  function BarsSeen(ops: seq<Op>, i: nat): int {
    Tally(ops, BarsOf(i))
  }

  /** The counter after one more bar. */
  function Counted(bars: nat, every: nat): nat {
    if bars + 1 < every then bars + 1 else 0
  }

  lemma AccruingCounts(cfg: Config, v: Venue, bar: Bar, now: int, i: nat)
    ensures var every := FundingEvery(cfg, i);
            var before := ShadowOf(v.shadows, i);
            ShadowOf(AccrueFunding(cfg, v, bar, now).0.shadows, i)
              == (if i == bar.instrument && every > 0 then before.(bars := Counted(before.bars, every)) else before)
  {
    hide MulRate, FundingRateAt, SettledCash;
  }

  lemma LiquidatingKeepsCounters(cfg: Config, v: Venue, bar: Bar, now: int, i: nat)
    ensures ShadowOf(CheckLiquidation(cfg, v, bar, now).0.shadows, i).bars == ShadowOf(v.shadows, i).bars
  {
    hide DropInstrument, MustLiquidate, Slipped, FeeCosts, SettledCash, AverageEntry;
  }

  lemma ObservingCounts(cfg: Config, v: Venue, bar: Bar, now: int, i: nat)
    ensures var every, before := FundingEvery(cfg, i), ShadowOf(v.shadows, i).bars;
            ShadowOf(Observed(cfg, v, bar, now).0.shadows, i).bars
              == (if i == bar.instrument && every > 0 then Counted(before, every) else before)
  {
    hide ScanOrders, SettleFills, AccrueFunding, CheckLiquidation, FundingEvery, ResolveClaims;
    var marked := Marked(v, bar);
    var s := ScanBar(cfg, marked, bar, now);
    var ready := marked.(resting := s.kept, drawn := s.drawn);
    SettlingKeepsCounters(cfg, ready, s.staged, now, i);
    var settled := SettleFills(cfg, ready, s.staged, now).0;
    var legs := ResolveClaims(settled.resting, s.claims, now).0;
    AccruingCounts(cfg, settled.(resting := legs), bar, now, i);
    LiquidatingKeepsCounters(cfg, AccrueFunding(cfg, settled.(resting := legs), bar, now).0, bar, now, i);
  }

  lemma CountedModulo(seen: nat, every: nat)
    requires every > 0
    ensures Counted(seen % every, every) == (seen + 1) % every
  {
    var q, m := seen / every, seen % every;
    assert seen + 1 == q * every + (m + 1);
    if m + 1 == every {
      assert seen + 1 == (q + 1) * every;
      Multiple(q + 1, every, 0);
    } else {
      Multiple(q, every, m + 1);
    }
  }

  lemma Multiple(q: nat, every: nat, rest: nat)
    requires rest < every
    ensures (q * every + rest) % every == rest
  {
    var n := q * every + rest;
    assert (n / every - q) * every == rest - n % every;
    if n / every > q { MulMonotone(1, n / every - q, every); }
    if n / every < q { MulMonotone(n / every - q, -1, every); }
  }

  /** Only bars of the instrument move its counter. */
  lemma ExecCounts(cfg: Config, v: Venue, op: Op, i: nat)
    requires FundingEvery(cfg, i) > 0
    ensures var before := ShadowOf(v.shadows, i).bars;
            ShadowOf(Exec(cfg, v, op).0.shadows, i).bars == (if BarsOf(i)(op) == 1 then Counted(before, FundingEvery(cfg, i)) else before)
  {
    hide Observed, FundingEvery, Rejection;
    if op.Observe? { ObservingCounts(cfg, v, op.bar, op.now, i); }
  }

  lemma LastExecCounts(cfg: Config, cash: Option<int>, ops: seq<Op>, i: nat)
    requires FundingEvery(cfg, i) > 0 && ops != []
    ensures var op := ops[|ops| - 1];
            var before := BarsCounted(cfg, cash, ops[..|ops| - 1], i);
            BarsCounted(cfg, cash, ops, i) == if BarsOf(i)(op) == 1 then Counted(before, FundingEvery(cfg, i)) else before
  {
    hide FundingEvery, Exec, Counted, BarsOf;
    ExecCounts(cfg, RunOps(cfg, cash, ops[..|ops| - 1]).0, ops[|ops| - 1], i);
  }

  /** The venue's own counter of the instrument after a run. */
  function BarsCounted(cfg: Config, cash: Option<int>, ops: seq<Op>, i: nat): nat {
    ShadowOf(RunOps(cfg, cash, ops).0.shadows, i).bars
  }

  /** The counter of every perpetual holds the bars seen since its last settlement date. */
  lemma {:induction false} FundingIsCounted(cfg: Config, cash: Option<int>, ops: seq<Op>, i: nat)
    requires FundingEvery(cfg, i) > 0
    ensures InPhase(BarsCounted(cfg, cash, ops, i), BarsSeen(ops, i), FundingEvery(cfg, i))
  {
    hide FundingEvery, BarsCounted, BarsSeen, Counted, BarsOf, InPhase;
    if ops != [] {
      var init := ops[..|ops| - 1];
      FundingIsCounted(cfg, cash, init, i);
      LastExecCounts(cfg, cash, ops, i);
      LastSeen(ops, i);
      PhaseAdvances(BarsCounted(cfg, cash, init, i), BarsSeen(init, i), FundingEvery(cfg, i));
    } else {
      NothingCounted(cfg, cash, i);
      NothingSeen(FundingEvery(cfg, i));
    }
  }

  lemma LastSeen(ops: seq<Op>, i: nat)
    requires ops != []
    ensures var seen := BarsOf(i)(ops[|ops| - 1]);
            (seen == 0 || seen == 1) && BarsSeen(ops, i) == BarsSeen(ops[..|ops| - 1], i) + seen
  {
  }

  lemma NothingCounted(cfg: Config, cash: Option<int>, i: nat)
    ensures BarsCounted(cfg, cash, [], i) == 0 && BarsSeen([], i) == 0
  {
  }

  /** The counter holds how many bars have passed since the last date of the cadence. */
  ghost predicate InPhase(bars: nat, seen: int, every: nat) {
    every > 0 && seen >= 0 && bars == seen % every
  }

  lemma PhaseAdvances(bars: nat, seen: int, every: nat)
    requires InPhase(bars, seen, every)
    ensures InPhase(Counted(bars, every), seen + 1, every)
  {
    CountedModulo(seen, every);
  }

  lemma NothingSeen(every: nat)
    requires every > 0
    ensures InPhase(0, 0, every)
  {
  }

  /** The scheduled rate of the time, or else the plain basis-point share, of the position at the close. */
  function Charge(cfg: Config, bar: Bar, now: int, net: int): int {
    if bar.instrument in cfg.schedules then
      MulRate(bar.close * net, FundingRateAt(cfg.schedules[bar.instrument], now))
    else
      MulBps(bar.close * net, cfg.fundingBps)
  }

  /** x is n hundred-millionths, truncated toward zero. */
  predicate TruncatesRate(x: int, n: int) {
    if n >= 0 then 100_000_000 * x <= n < 100_000_000 * (x + 1) else 100_000_000 * (x - 1) < n <= 100_000_000 * x
  }

  /** The charge to the unit: the position's value at the close times the scheduled rate in force, or the basis-point rate, truncated. */
  lemma ChargeIsExact(cfg: Config, bar: Bar, now: int, net: int)
    ensures var value, charge := bar.close * net, Charge(cfg, bar, now, net);
            if bar.instrument in cfg.schedules then TruncatesRate(charge, value * FundingRateAt(cfg.schedules[bar.instrument], now))
            else Truncates(charge, value * cfg.fundingBps)
  {
    var value := bar.close * net;
    if bar.instrument in cfg.schedules {
      var rate := FundingRateAt(cfg.schedules[bar.instrument], now);
      TruncDivBounds(value * rate, 100_000_000);
      assert 100_000_000 * MulRate(value, rate) == MulRate(value, rate) * 100_000_000;
    } else {
      BpsTruncates(value, cfg.fundingBps);
    }
  }

  /** The rate a settlement reports, in hundred-millionths. */
  function ReportedRate(cfg: Config, instrument: nat, now: int): int {
    if instrument in cfg.schedules then FundingRateAt(cfg.schedules[instrument], now) else cfg.fundingBps * 10_000
  }

  /**
   * Funding is settled on exactly the bars of the cadence that find a position open, and
   * charges that position as the bar's fills left it.
   */
  lemma FundingFallsDue(cfg: Config, cash: Option<int>, ops: seq<Op>, bar: Bar, now: int)
    requires FreshIds(ops) && FundingEvery(cfg, bar.instrument) > 0
    ensures var v := RunOps(cfg, cash, ops).0;
            var events := Observed(cfg, v, bar, now).1;
            var net := NetAfterFills(cfg, v, bar, now);
            var due := (BarsSeen(ops, bar.instrument) + 1) % FundingEvery(cfg, bar.instrument) == 0;
            && ((exists e :: e in events && e.FundingSettlement?) <==> due && net != 0)
            && (forall e :: e in events && e.FundingSettlement? ==>
                  e.instrument == bar.instrument && e.ts == now && e.cost == Charge(cfg, bar, now, net)
                  && e.rate == ReportedRate(cfg, bar.instrument, now))
  {
    hide RunOps, Observed, NetAfterFills, AccrueFunding;
    var i := bar.instrument;
    var v := RunOps(cfg, cash, ops).0;
    EveryRunKeepsTheBooks(cfg, cash, ops);
    FundingIsCounted(cfg, cash, ops, i);
    CountedModulo(BarsSeen(ops, i), FundingEvery(cfg, i));
    var w := ClosingOfBar(cfg, v, bar, now);
    AccrualWhenDue(cfg, w, bar, now);
    LiquidatingIsQuiet(cfg, AccrueFunding(cfg, w, bar, now).0, bar, now);
    var paid := AccrueFunding(cfg, w, bar, now).1;
    if paid != [] { assert paid[0] in paid && paid[0] in Observed(cfg, v, bar, now).1; }
    hide CheckLiquidation;
  }

  lemma LiquidatingIsQuiet(cfg: Config, v: Venue, bar: Bar, now: int)
    ensures forall e :: e in CheckLiquidation(cfg, v, bar, now).1 ==> !e.FundingSettlement?
  {
    hide DropInstrument, SettleOne, FeeCosts;
    DropEvents(v.resting, bar.instrument, now);
  }

  lemma AccrualWhenDue(cfg: Config, w: Venue, bar: Bar, now: int)
    requires FundingEvery(cfg, bar.instrument) > 0
    ensures var events := AccrueFunding(cfg, w, bar, now).1;
            var shadow := ShadowOf(w.shadows, bar.instrument);
            && (Counted(shadow.bars, FundingEvery(cfg, bar.instrument)) == 0 && shadow.net != 0 <==> |events| == 1)
            && |events| <= 1
            && (forall e :: e in events ==>
                  e.FundingSettlement? && e.instrument == bar.instrument && e.ts == now
                  && e.cost == Charge(cfg, bar, now, shadow.net) && e.rate == ReportedRate(cfg, bar.instrument, now))
  {
    MulRateWidensBps(bar.close * ShadowOf(w.shadows, bar.instrument).net, cfg.fundingBps);
    hide MulRate, FundingRateAt, SettledCash, MulBps;
  }
}
