/**
 * The cash guard. With funding and liquidation off, mirrored cash covers what is reserved for all
 * resting buys, at the marks of the last buy admitted, as long as no market, stop, if-touched or
 * trailing buy can fill above that mark; so it never goes below zero, through partial fills,
 * cancellations and group reductions. Buys at a limit always qualify. The last lemmas show the three
 * ways the others overdraw.
 */
module Solvency {
  import opened Prelude
  import opened Trading
  import opened Exchange
  import opened Lifecycle
  import opened FillCosts

  // ---------------------------------------------------------------- what the caller must arrange

  predicate GuardedConfig(cfg: Config) {
    && RatesInRange(cfg)
    && cfg.liquidationBps.None?
    && forall i :: 0 <= i < |cfg.specs| ==> !cfg.specs[i].perpetual
  }

  /** A buy's limit is not negative, nor is a sell-if-touched's trigger. */
  predicate GuardedOrder(order: Order) {
    && (order.side.Buy? && order.kind.Passive() ==> order.kind.limit >= 0)
    && (order.side.Sell? && order.kind.MarketIfTouched? ==> order.kind.trigger >= 0)
  }

  predicate GuardedOp(op: Op) {
    && (op.Submit? ==> GuardedOrder(op.order))
    && (op.Observe? ==> op.bar.open >= 0 && op.bar.low >= 0)
  }

  /** If this bar triggers the buy, it does so no higher than the mark it is reserved at. */
  predicate Bounded(anchor: map<nat, Shadow>, bar: Bar, r: Resting) {
    r.order.side.Buy? && !r.order.kind.Passive() && r.order.instrument == bar.instrument && r.activateIn == 0
    && Evaluate(r, bar).1.FillAt?
    ==> Evaluate(r, bar).1.price <= ShadowOf(anchor, bar.instrument).mark
  }

  ghost predicate AllBounded(anchor: map<nat, Shadow>, bar: Bar, resting: seq<Resting>) {
    forall r :: r in resting ==> Bounded(anchor, bar, r)
  }

  /** In prices alone: the bar does not trade above the mark, nor is the order's own touch price above it. */
  lemma QuietBarIsBounded(anchor: map<nat, Shadow>, bar: Bar, r: Resting)
    requires bar.open <= bar.high <= ShadowOf(anchor, bar.instrument).mark
    requires r.order.kind.MarketIfTouched? ==> r.order.kind.trigger <= ShadowOf(anchor, bar.instrument).mark
    ensures Bounded(anchor, bar, r)
  {
    hide TrailOffset;
  }

  // ---------------------------------------------------------------- one order

  ghost predicate AllGuarded(resting: seq<Resting>) {
    forall r :: r in resting ==> GuardedOrder(r.order)
  }

  lemma CeilingNonNegative(cfg: Config, anchor: map<nat, Shadow>, order: Order)
    requires RatesInRange(cfg) && GuardedOrder(order) && order.side.Buy?
    ensures Ceiling(cfg, anchor, order) >= 0
  {
    if !order.kind.Passive() { TakerBelowCeiling(cfg, anchor, order, 0, 1, 0); }
  }

  /** The cash set aside for a resting order is its cost at its ceiling; sells have none. */
  lemma ReserveIsCost(cfg: Config, anchor: map<nat, Shadow>, r: Resting)
    ensures ReserveOf(cfg, anchor)(r)
            == if r.order.side.Buy? then CostAt(cfg, Ceiling(cfg, anchor, r.order), r.order.qty - r.filled) else 0
  {
    if r.order.side.Buy? {
      ReservedAtCeiling(cfg, anchor, r.order, r.order.qty - r.filled);
      hide BuyCost;
      if !Priced(anchor, r.order) { assert CostAt(cfg, 0, r.order.qty - r.filled) == 0 by { FreeCost(cfg, r.order.qty - r.filled); } }
    }
  }

  lemma FreeCost(cfg: Config, qty: int)
    ensures CostAt(cfg, 0, qty) == 0
  {
  }

  /** What a staged fill does to cash: the cost of a buy, minus the net proceeds of a sell. */
  function Debit(cfg: Config): Staged -> int {
    (f: Staged) => f.side.Sign() * (f.price * f.qty) + Total(FeeCosts(cfg, f.instrument, f.price, f.qty))
  }

  lemma DebitOf(cfg: Config, f: Staged)
    requires f.instrument < |cfg.specs|
    ensures Debit(cfg)(f) == (if f.side.Buy? then CostAt(cfg, f.price, f.qty) else MulBps(f.price * f.qty, cfg.feeBps) - f.price * f.qty)
  {
    var amount := f.price * f.qty;
    var costs := FeeCosts(cfg, f.instrument, f.price, f.qty);
    if cfg.feeBps != 0 {
      assert costs == [MulBps(amount, cfg.feeBps)] && costs[..0] == [];
      assert Total(costs) == MulBps(amount, cfg.feeBps) by { hide MulBps; }
    } else {
      assert costs == [] && amount * 0 == 0;
      assert Total(costs) == MulBps(amount, cfg.feeBps);
    }
    hide MulBps, FeeCosts;
    assert f.side.Sign() * amount == (if f.side.Buy? then amount else -amount);
  }

  /** The price a fill is staged at: at most the ceiling of a bounded buy, never negative for a guarded sell. */
  lemma EvaluatedPrice(r: Resting, bar: Bar)
    requires GuardedOrder(r.order) && bar.open >= 0 && bar.low >= 0 && Evaluate(r, bar).1.FillAt?
    ensures var p := Evaluate(r, bar).1.price;
            if r.order.side.Buy? then r.order.kind.Passive() ==> p <= r.order.kind.limit else p >= 0
  {
    hide TrailOffset;
  }

  lemma StagedPrice(cfg: Config, anchor: map<nat, Shadow>, bar: Bar, now: int, s: Scan, r: Resting, base: int, triggered: bool, drew: bool)
    requires GuardedConfig(cfg) && GuardedOrder(r.order)
    requires if r.order.side.Sell? then base >= 0
             else if r.order.kind.Passive() then base <= r.order.kind.limit
             else base <= ShadowOf(anchor, r.order.instrument).mark
    ensures var d := DecideFill(cfg, bar, now, s, r, base, triggered, drew);
            d.staged.Some? ==>
              if r.order.side.Buy? then d.staged.value.price <= Ceiling(cfg, anchor, r.order) else d.staged.value.price >= 0
  {
    var d := DecideFill(cfg, bar, now, s, r, base, triggered, drew);
    if d.staged.Some? {
      if r.order.side.Sell? {
        SellPriceNonNegative(cfg, base, d.staged.value.qty, bar.volume);
      } else if !r.order.kind.Passive() {
        TakerBelowCeiling(cfg, anchor, r.order, base, d.staged.value.qty, bar.volume);
      }
    }
    hide FillPrice, Slipped;
  }

  lemma DecisionPrice(cfg: Config, anchor: map<nat, Shadow>, bar: Bar, now: int, s: Scan, r: Resting)
    requires GuardedConfig(cfg) && GuardedOrder(r.order) && Bounded(anchor, bar, r) && bar.open >= 0 && bar.low >= 0
    ensures var d := Decide(cfg, bar, now, s, r);
            d.staged.Some? ==>
              if r.order.side.Buy? then d.staged.value.price <= Ceiling(cfg, anchor, r.order) else d.staged.value.price >= 0
  {
    hide Evaluate, DecideFill, Ceiling;
    var (e, outcome) := Evaluate(r, bar);
    EvaluateKeeps(r, bar);
    if outcome.FillAt? && r.order.instrument == bar.instrument && r.activateIn == 0 {
      EvaluatedPrice(r, bar);
      var fired := Fire(e);
      StagedPrice(cfg, anchor, bar, now, s, fired, outcome.price, !r.armed && fired.armed, TouchIsUncertain(cfg, r.order, bar));
    }
  }

  /** What was reserved for an order covers what stays reserved plus what its fill takes. */
  lemma DecisionIsCovered(cfg: Config, anchor: map<nat, Shadow>, bar: Bar, now: int, s: Scan, r: Resting)
    requires GuardedConfig(cfg) && GuardedOrder(r.order) && Sound(cfg, r) && Bounded(anchor, bar, r) && bar.open >= 0 && bar.low >= 0
    ensures var d := Decide(cfg, bar, now, s, r);
            && (if d.kept.Some? then ReserveOf(cfg, anchor)(d.kept.value) else 0)
               + (if d.staged.Some? then Debit(cfg)(d.staged.value) else 0) <= ReserveOf(cfg, anchor)(r)
  {
    hide Decide, CostAt, Debit, ReserveOf, Ceiling, Bounded;
    var d := Decide(cfg, bar, now, s, r);
    DecisionFate(cfg, bar, now, s, r);
    DecisionPrice(cfg, anchor, bar, now, s, r);
    ReserveIsCost(cfg, anchor, r);
    if d.kept.Some? { ReserveIsCost(cfg, anchor, d.kept.value); }
    if d.staged.Some? { DebitOf(cfg, d.staged.value); }
    if r.order.side.Buy? {
      var ceiling, rest := Ceiling(cfg, anchor, r.order), r.order.qty - d.filled;
      CeilingNonNegative(cfg, anchor, r.order);
      if d.staged.Some? {
        CostMonotone(cfg, d.staged.value.price, ceiling, d.staged.value.qty);
        CostSplits(cfg, ceiling, d.staged.value.qty, rest);
      } else {
        CostSplits(cfg, ceiling, 0, rest);
      }
    } else if d.staged.Some? {
      SellProceeds(cfg, d.staged.value.price, d.staged.value.qty);
    }
  }

  lemma SellProceeds(cfg: Config, price: int, qty: int)
    requires 0 <= cfg.feeBps <= 10_000 && price >= 0 && qty >= 0
    ensures MulBps(price * qty, cfg.feeBps) - price * qty <= 0
  {
    assert price * qty >= 0;
    FeeBelowProceeds(price * qty, cfg.feeBps);
  }

  // ---------------------------------------------------------------- the pass and the stages after it

  lemma StepIsCovered(cfg: Config, anchor: map<nat, Shadow>, bar: Bar, now: int, s: Scan, r: Resting)
    requires GuardedConfig(cfg) && GuardedOrder(r.order) && Sound(cfg, r) && Bounded(anchor, bar, r) && bar.open >= 0 && bar.low >= 0
    ensures var t := Advance(s, r, Decide(cfg, bar, now, s, r), now);
            && Tally(t.kept, ReserveOf(cfg, anchor)) + Tally(t.staged, Debit(cfg))
               <= Tally(s.kept, ReserveOf(cfg, anchor)) + Tally(s.staged, Debit(cfg)) + ReserveOf(cfg, anchor)(r)
            && (AllGuarded(s.kept) && AllSound(cfg, s.kept) ==> AllGuarded(t.kept) && AllSound(cfg, t.kept))
  {
    hide Decide, ReserveOf, Debit, GuardedConfig;
    var d := Decide(cfg, bar, now, s, r);
    DecisionFate(cfg, bar, now, s, r);
    DecisionIsCovered(cfg, anchor, bar, now, s, r);
    TallyListed(s.kept, d.kept, ReserveOf(cfg, anchor));
    TallyListed(s.staged, d.staged, Debit(cfg));
  }

  lemma {:induction false} ScanIsCovered(cfg: Config, anchor: map<nat, Shadow>, bar: Bar, now: int, pending: seq<Resting>, start: Scan)
    requires GuardedConfig(cfg) && AllGuarded(pending) && AllSound(cfg, pending) && AllBounded(anchor, bar, pending) && bar.open >= 0 && bar.low >= 0
    requires start.kept == [] && start.staged == []
    ensures var s := ScanOrders(cfg, bar, now, pending, start);
            && Tally(s.kept, ReserveOf(cfg, anchor)) + Tally(s.staged, Debit(cfg)) <= Tally(pending, ReserveOf(cfg, anchor))
            && AllGuarded(s.kept) && AllSound(cfg, s.kept)
  {
    hide Decide, Advance, ReserveOf, Debit, GuardedConfig, GuardedOrder, Sound, Bounded;
    if pending != [] {
      var init, r := pending[..|pending| - 1], pending[|pending| - 1];
      assert pending == init + [r];
      ScanIsCovered(cfg, anchor, bar, now, init, start);
      StepIsCovered(cfg, anchor, bar, now, ScanOrders(cfg, bar, now, init, start), r);
    }
  }

  lemma {:induction false} SettlingDebits(cfg: Config, v: Venue, staged: seq<Staged>, now: int)
    requires v.cash.Some?
    ensures var w := SettleFills(cfg, v, staged, now).0;
            w.cash == Some(v.cash.value - Tally(staged, Debit(cfg)))
  {
    if staged != [] {
      hide ApplyShadow, FeeCosts, Total;
      SettlingDebits(cfg, v, staged[..|staged| - 1], now);
    }
  }

  lemma LegFreesCash(cfg: Config, anchor: map<nat, Shadow>, r: Resting, c: Claim)
    requires GuardedConfig(cfg) && GuardedOrder(r.order) && Sound(cfg, r)
    ensures var leg := ResolveLeg(r, c);
            && (if leg.Some? then ReserveOf(cfg, anchor)(leg.value) else 0) <= ReserveOf(cfg, anchor)(r)
            && (leg.Some? ==> GuardedOrder(leg.value.order) && Sound(cfg, leg.value))
  {
    hide CostAt, ReserveOf, Ceiling;
    var leg := ResolveLeg(r, c);
    ReserveIsCost(cfg, anchor, r);
    if leg.Some? { ReserveIsCost(cfg, anchor, leg.value); }
    if r.order.side.Buy? {
      var ceiling := Ceiling(cfg, anchor, r.order);
      CeilingNonNegative(cfg, anchor, r.order);
      var rest := r.order.qty - (if leg.Some? then leg.value.filled else r.order.qty);
      CostSplits(cfg, ceiling, r.order.qty - r.filled - rest, rest);
      CostSplits(cfg, ceiling, 0, r.order.qty - r.filled - rest);
    }
  }

  lemma {:induction false} ClaimFreesCash(cfg: Config, anchor: map<nat, Shadow>, resting: seq<Resting>, c: Claim, now: int)
    requires GuardedConfig(cfg) && AllGuarded(resting) && AllSound(cfg, resting)
    ensures var kept := ResolveClaim(resting, c, now).0;
            Tally(kept, ReserveOf(cfg, anchor)) <= Tally(resting, ReserveOf(cfg, anchor)) && AllGuarded(kept) && AllSound(cfg, kept)
  {
    hide ResolveLeg, ReserveOf, GuardedConfig, GuardedOrder, Sound;
    if resting != [] {
      var init, r := resting[..|resting| - 1], resting[|resting| - 1];
      assert resting == init + [r];
      ClaimFreesCash(cfg, anchor, init, c, now);
      var kept := ResolveClaim(init, c, now).0;
      LegFreesCash(cfg, anchor, r, c);
      TallyListed(kept, ResolveLeg(r, c), ReserveOf(cfg, anchor));
    }
  }

  lemma {:induction false} ClaimsFreeCash(cfg: Config, anchor: map<nat, Shadow>, resting: seq<Resting>, claims: seq<Claim>, now: int)
    requires GuardedConfig(cfg) && AllGuarded(resting) && AllSound(cfg, resting)
    ensures var kept := ResolveClaims(resting, claims, now).0;
            Tally(kept, ReserveOf(cfg, anchor)) <= Tally(resting, ReserveOf(cfg, anchor)) && AllGuarded(kept) && AllSound(cfg, kept)
  {
    if claims != [] {
      ClaimsFreeCash(cfg, anchor, resting, claims[..|claims| - 1], now);
      ClaimFreesCash(cfg, anchor, ResolveClaims(resting, claims[..|claims| - 1], now).0, claims[|claims| - 1], now);
    }
  }

  // ---------------------------------------------------------------- whole runs

  /** Cash covers the reserve of every resting buy at the anchored marks. */
  ghost predicate CashCovers(cfg: Config, anchor: map<nat, Shadow>, v: Venue) {
    && v.cash.Some?
    && AllGuarded(v.resting) && AllSound(cfg, v.resting)
    && Tally(v.resting, ReserveOf(cfg, anchor)) <= v.cash.value
  }

  /** The marks as they were when a buy was last admitted: what the guard last checked cash against. */
  function Anchor(cfg: Config, cash: Option<int>, ops: seq<Op>): map<nat, Shadow> {
    if ops == [] then
      map[]
    else
      var init, op := ops[..|ops| - 1], ops[|ops| - 1];
      var v := RunOps(cfg, cash, init).0;
      if op.Submit? && op.order.side.Buy? && Rejection(cfg, v, op.order).None? then v.shadows else Anchor(cfg, cash, init)
  }

  /** The instrument's last close, zero before its first bar. */
  function LastClose(ops: seq<Op>, i: nat): int {
    if ops == [] then 0
    else if ops[|ops| - 1].Observe? && ops[|ops| - 1].bar.instrument == i then ops[|ops| - 1].bar.close
    else LastClose(ops[..|ops| - 1], i)
  }

  /** After `init`: no buy without a price to reserve at, and no bar that could fill one above where it was reserved. */
  ghost predicate CalmAfter(cfg: Config, cash: Option<int>, init: seq<Op>, op: Op) {
    match op
    case Submit(_, order, _) => order.side.Buy? && !order.kind.Passive() ==> LastClose(init, order.instrument) > 0
    case Cancel(_, _) => true
    case Observe(bar, _) => AllBounded(Anchor(cfg, cash, init), bar, RunOps(cfg, cash, init).0.resting)
  }

  ghost predicate Calm(cfg: Config, cash: Option<int>, ops: seq<Op>) {
    forall k :: 0 <= k < |ops| ==> CalmAfter(cfg, cash, ops[..k], ops[k])
  }

  lemma {:induction false} SettlingKeepsMarks(cfg: Config, v: Venue, staged: seq<Staged>, now: int, i: nat)
    ensures ShadowOf(SettleFills(cfg, v, staged, now).0.shadows, i).mark == ShadowOf(v.shadows, i).mark
  {
    if staged != [] {
      hide FeeCosts, SettledCash, AverageCost.AverageEntry;
      SettlingKeepsMarks(cfg, v, staged[..|staged| - 1], now, i);
    }
  }

  lemma ClosingKeepsMarks(cfg: Config, v: Venue, bar: Bar, now: int, i: nat)
    ensures ShadowOf(CheckLiquidation(cfg, AccrueFunding(cfg, v, bar, now).0, bar, now).0.shadows, i).mark == ShadowOf(v.shadows, i).mark
  {
    hide DropInstrument, MustLiquidate, Slipped, FeeCosts, SettledCash, AverageCost.AverageEntry, MulRate, FundingRateAt;
  }

  lemma ObservingMarks(cfg: Config, v: Venue, bar: Bar, now: int, i: nat)
    ensures ShadowOf(Observed(cfg, v, bar, now).0.shadows, i).mark == if i == bar.instrument then bar.close else ShadowOf(v.shadows, i).mark
  {
    hide ScanOrders, SettleFills, AccrueFunding, CheckLiquidation, ResolveClaims;
    var marked := Marked(v, bar);
    var s := ScanBar(cfg, marked, bar, now);
    var ready := marked.(resting := s.kept, drawn := s.drawn);
    SettlingKeepsMarks(cfg, ready, s.staged, now, i);
    var settled := SettleFills(cfg, ready, s.staged, now).0;
    ClosingKeepsMarks(cfg, settled.(resting := ResolveClaims(settled.resting, s.claims, now).0), bar, now, i);
  }

  /** The venue's mark is the last close. */
  lemma {:induction false} MarkIsLastClose(cfg: Config, cash: Option<int>, ops: seq<Op>, i: nat)
    ensures ShadowOf(RunOps(cfg, cash, ops).0.shadows, i).mark == LastClose(ops, i)
  {
    if ops != [] {
      hide Observed, Rejection;
      var init, op := ops[..|ops| - 1], ops[|ops| - 1];
      MarkIsLastClose(cfg, cash, init, i);
      if op.Observe? { ObservingMarks(cfg, RunOps(cfg, cash, init).0, op.bar, op.now, i); }
    }
  }

  lemma ObserveStaysCovered(cfg: Config, anchor: map<nat, Shadow>, v: Venue, bar: Bar, now: int)
    requires GuardedConfig(cfg) && CashCovers(cfg, anchor, v) && AllBounded(anchor, bar, v.resting) && bar.open >= 0 && bar.low >= 0
    ensures CashCovers(cfg, anchor, Observed(cfg, v, bar, now).0)
  {
    hide ScanOrders, SettleFills, ResolveClaims, ReserveOf, Debit, AllBounded;
    var marked := Marked(v, bar);
    var s := ScanBar(cfg, marked, bar, now);
    ScanIsCovered(cfg, anchor, bar, now, v.resting, ScanStart(cfg, marked, bar));
    var ready := marked.(resting := s.kept, drawn := s.drawn);
    SettlingDebits(cfg, ready, s.staged, now);
    SettlingKeepsResting(cfg, ready, s.staged, now);
    ClaimsFreeCash(cfg, anchor, s.kept, s.claims, now);
  }

  lemma {:induction false} SettlingKeepsResting(cfg: Config, v: Venue, staged: seq<Staged>, now: int)
    ensures SettleFills(cfg, v, staged, now).0.resting == v.resting
  {
    if staged != [] {
      hide ApplyShadow, FeeCosts;
      SettlingKeepsResting(cfg, v, staged[..|staged| - 1], now);
    }
  }

  lemma AdmittedBuyIsCovered(cfg: Config, v: Venue, order: Order)
    requires v.cash.Some? && order.side.Buy? && Priced(v.shadows, order) && Rejection(cfg, v, order).None?
    ensures Reserved(cfg, v.shadows, v.resting) + BuyCost(cfg, v.shadows, order, order.qty).GetOr(0) <= v.cash.value
  {
    ReservedAtCeiling(cfg, v.shadows, order, order.qty);
    hide CostAt, Ceiling, BuyCost, Reserved, Priced;
  }

  lemma AdmittedAtTheEnd(cfg: Config, v: Venue, op: Op)
    requires op.Submit?
    ensures var added := Resting(op.id, op.order, cfg.latencyBars, false, None, 0);
            && Exec(cfg, v, op).0 == (if Rejection(cfg, v, op.order).None? then v.(resting := v.resting + [added]) else v)
            && (Rejection(cfg, v, op.order).None? ==> Sound(cfg, added))
  {
    hide BuyCost, Reserved;
  }

  lemma OneMoreIsCovered(cfg: Config, anchor: map<nat, Shadow>, v: Venue, added: Resting)
    requires AllGuarded(v.resting) && AllSound(cfg, v.resting) && GuardedOrder(added.order) && Sound(cfg, added)
    requires v.cash.Some? && Tally(v.resting, ReserveOf(cfg, anchor)) + ReserveOf(cfg, anchor)(added) <= v.cash.value
    ensures CashCovers(cfg, anchor, v.(resting := v.resting + [added]))
  {
    hide ReserveOf, GuardedOrder, Sound;
    TallyPush(v.resting, added, ReserveOf(cfg, anchor));
  }

  /** Admitting a buy covers everything at today's marks; anything else changes nothing that is reserved. */
  lemma SubmitStaysCovered(cfg: Config, anchor: map<nat, Shadow>, v: Venue, op: Op)
    requires GuardedConfig(cfg) && CashCovers(cfg, anchor, v) && op.Submit? && GuardedOp(op)
    requires op.order.side.Buy? ==> Priced(v.shadows, op.order)
    ensures var admitted := op.order.side.Buy? && Rejection(cfg, v, op.order).None?;
            CashCovers(cfg, if admitted then v.shadows else anchor, Exec(cfg, v, op).0)
  {
    hide Exec, Rejection, BuyCost, Priced, GuardedOrder, Sound, AllGuarded, AllSound;
    AdmittedAtTheEnd(cfg, v, op);
    if Rejection(cfg, v, op.order).None? {
      var added := Resting(op.id, op.order, cfg.latencyBars, false, None, 0);
      var at := if op.order.side.Buy? then v.shadows else anchor;
      if op.order.side.Buy? {
        AdmittedBuyIsCovered(cfg, v, op.order);
      } else {
        ReserveIsCost(cfg, anchor, added);
      }
      OneMoreIsCovered(cfg, at, v, added);
    }
  }

  lemma ReservesAreNonNegative(cfg: Config, anchor: map<nat, Shadow>, resting: seq<Resting>)
    requires GuardedConfig(cfg) && AllGuarded(resting) && AllSound(cfg, resting)
    ensures forall r :: r in resting ==> ReserveOf(cfg, anchor)(r) >= 0
    ensures Tally(resting, ReserveOf(cfg, anchor)) >= 0
  {
    hide ReserveOf, Ceiling, CostAt;
    forall r | r in resting ensures ReserveOf(cfg, anchor)(r) >= 0 {
      ReserveIsCost(cfg, anchor, r);
      if r.order.side.Buy? {
        CeilingNonNegative(cfg, anchor, r.order);
        CostSplits(cfg, Ceiling(cfg, anchor, r.order), 0, r.order.qty - r.filled);
      }
    }
    TallyNonNegative(resting, ReserveOf(cfg, anchor));
  }

  lemma CancelStaysCovered(cfg: Config, anchor: map<nat, Shadow>, v: Venue, op: Op)
    requires GuardedConfig(cfg) && CashCovers(cfg, anchor, v) && op.Cancel?
    ensures CashCovers(cfg, anchor, Exec(cfg, v, op).0)
  {
    hide Exec, ReserveOf;
    CancelEffect(cfg, v, op);
    var i := IndexOf(v.resting, op.id);
    if i < |v.resting| {
      var a, r, b := v.resting[..i], v.resting[i], v.resting[i + 1..];
      assert v.resting == (a + [r]) + b;
      ReservesAreNonNegative(cfg, anchor, v.resting);
      assert r in v.resting;
      TallyConcat(a + [r], b, ReserveOf(cfg, anchor));
      TallyPush(a, r, ReserveOf(cfg, anchor));
      TallyConcat(a, b, ReserveOf(cfg, anchor));
    }
  }

  lemma CalmPrefix(cfg: Config, cash: Option<int>, ops: seq<Op>)
    requires ops != [] && Calm(cfg, cash, ops)
    ensures Calm(cfg, cash, ops[..|ops| - 1]) && CalmAfter(cfg, cash, ops[..|ops| - 1], ops[|ops| - 1])
  {
    hide CalmAfter;
    var init := ops[..|ops| - 1];
    forall k | 0 <= k < |init| ensures CalmAfter(cfg, cash, init[..k], init[k]) {
      assert ops[..k] == init[..k] && CalmAfter(cfg, cash, ops[..k], ops[k]);
    }
  }

  /**
   * Solvency of every run in which each market, stop, if-touched or trailing buy is sent once its
   * instrument has a close, and no bar fills one above the close it was reserved at: mirrored cash
   * covers all that is reserved, so it is never negative.
   */
  lemma {:induction false} CalmRunsStaySolvent(cfg: Config, start: nat, ops: seq<Op>)
    requires GuardedConfig(cfg) && (forall op :: op in ops ==> GuardedOp(op)) && Calm(cfg, Some(start), ops)
    ensures var v := RunOps(cfg, Some(start), ops).0;
            var anchor := Anchor(cfg, Some(start), ops);
            && CashCovers(cfg, anchor, v)
            && v.cash.value >= Tally(v.resting, ReserveOf(cfg, anchor)) >= 0
  {
    hide Exec, GuardedConfig, GuardedOp, Calm, CalmAfter, AllBounded, ReserveOf, Rejection, CashCovers;
    if ops == [] {
      EmptyIsCovered(cfg, start);
    } else {
      var init, op := ops[..|ops| - 1], ops[|ops| - 1];
      assert ops == init + [op];
      assert op in ops && GuardedOp(op);
      CalmPrefix(cfg, Some(start), ops);
      CalmRunsStaySolvent(cfg, start, init);
      OpStaysCovered(cfg, start, init, op);
    }
    var v := RunOps(cfg, Some(start), ops).0;
    CoveredIsSolvent(cfg, Anchor(cfg, Some(start), ops), v);
  }

  lemma EmptyIsCovered(cfg: Config, start: nat)
    ensures CashCovers(cfg, map[], Opened(Some(start)))
  {
  }

  lemma CoveredIsSolvent(cfg: Config, anchor: map<nat, Shadow>, v: Venue)
    requires GuardedConfig(cfg) && CashCovers(cfg, anchor, v)
    ensures v.cash.Some? && v.cash.value >= Tally(v.resting, ReserveOf(cfg, anchor)) >= 0
  {
    ReservesAreNonNegative(cfg, anchor, v.resting);
  }

  lemma OpStaysCovered(cfg: Config, start: nat, init: seq<Op>, op: Op)
    requires GuardedConfig(cfg) && GuardedOp(op) && CalmAfter(cfg, Some(start), init, op)
    requires CashCovers(cfg, Anchor(cfg, Some(start), init), RunOps(cfg, Some(start), init).0)
    ensures CashCovers(cfg, Anchor(cfg, Some(start), init + [op]), Exec(cfg, RunOps(cfg, Some(start), init).0, op).0)
  {
    hide CashCovers, GuardedConfig, RunOps, Observed, Rejection, AllBounded;
    var v, anchor := RunOps(cfg, Some(start), init).0, Anchor(cfg, Some(start), init);
    assert (init + [op])[..|init|] == init;
    match op
    case Submit(_, order, _) =>
      MarkIsLastClose(cfg, Some(start), init, order.instrument);
      SubmitStaysCovered(cfg, anchor, v, op);
    case Cancel(_, _) => CancelStaysCovered(cfg, anchor, v, op);
    case Observe(bar, now) => ObserveStaysCovered(cfg, anchor, v, bar, now);
  }

  // ---------------------------------------------------------------- which orders still rest

  /** A taker that ends on the first live bar that meets its price: nothing caps its fill, or its remainder expires. */
  predicate SingleFill(cfg: Config, order: Order) {
    !order.kind.Passive() && !order.kind.TrailingStop? && (cfg.participationBps.None? || order.tif != Gtc)
  }

  predicate Hits(order: Order, bar: Bar) {
    match order.kind
    case Market => true
    case Stop(trigger) => StopTriggered(order.side, trigger, bar)
    case MarketIfTouched(trigger) => if order.side.Buy? then bar.low <= trigger else bar.high >= trigger
    case Limit(_) => false
    case StopLimit(_, _) => false
    case TrailingStop(_) => false
  }

  lemma HitEnds(cfg: Config, bar: Bar, now: int, s: Scan, r: Resting)
    requires Sound(cfg, r) && r.order.instrument == bar.instrument && r.activateIn == 0
    requires SingleFill(cfg, r.order) && Hits(r.order, bar) && (cfg.participationBps.None? ==> s.cap.None?)
    ensures Decide(cfg, bar, now, s, r).kept.None?
  {
    hide FillPrice, DrawFills;
  }

  /** What is left of r after a bar: the same order, a bar closer to being live, and not one the bar must have ended. */
  predicate Survives(cfg: Config, bar: Bar, r: Resting, left: Resting) {
    && left.id == r.id && left.order == r.order
    && left.activateIn == (if r.order.instrument == bar.instrument && r.activateIn > 0 then r.activateIn - 1 else r.activateIn)
    && !(r.order.instrument == bar.instrument && r.activateIn == 0 && SingleFill(cfg, r.order) && Hits(r.order, bar))
  }

  ghost predicate Survivor(cfg: Config, bar: Bar, before: seq<Resting>, left: Resting) {
    exists r :: r in before && Survives(cfg, bar, r, left)
  }

  ghost predicate Survivors(cfg: Config, bar: Bar, before: seq<Resting>, after: seq<Resting>) {
    forall left :: left in after ==> Survivor(cfg, bar, before, left)
  }

  lemma DecisionSurvives(cfg: Config, bar: Bar, now: int, s: Scan, r: Resting)
    requires Sound(cfg, r) && (cfg.participationBps.None? ==> s.cap.None?)
    ensures var d := Decide(cfg, bar, now, s, r); d.kept.Some? ==> Survives(cfg, bar, r, d.kept.value)
  {
    DecisionFate(cfg, bar, now, s, r);
    DecisionActivation(cfg, bar, now, s, r);
    if r.order.instrument == bar.instrument && r.activateIn == 0 && SingleFill(cfg, r.order) && Hits(r.order, bar) {
      HitEnds(cfg, bar, now, s, r);
    }
    hide Decide, SingleFill, Hits;
  }

  lemma EvaluationActivation(r: Resting, bar: Bar)
    ensures Evaluate(r, bar).0.activateIn == r.activateIn
  {
  }

  lemma DecisionActivation(cfg: Config, bar: Bar, now: int, s: Scan, r: Resting)
    ensures var d := Decide(cfg, bar, now, s, r);
            d.kept.Some? ==>
              d.kept.value.activateIn == (if r.order.instrument == bar.instrument && r.activateIn > 0 then r.activateIn - 1 else r.activateIn)
  {
    EvaluationActivation(r, bar);
    hide Evaluate, FillPrice, DrawFills, TouchIsUncertain;
  }

  lemma OneMoreSurvivor(cfg: Config, bar: Bar, init: seq<Resting>, r: Resting, kept: seq<Resting>, left: Option<Resting>)
    requires Survivors(cfg, bar, init, kept) && (left.Some? ==> Survives(cfg, bar, r, left.value))
    ensures Survivors(cfg, bar, init + [r], kept + Listed(left))
  {
    hide Survives;
    forall l | l in kept + Listed(left) ensures Survivor(cfg, bar, init + [r], l) {
      if l in kept {
        var q :| q in init && Survives(cfg, bar, q, l);
        assert q in init + [r];
      } else {
        assert l == left.value && r in init + [r];
      }
    }
  }

  lemma AdvanceParts(s: Scan, r: Resting, d: Decision, now: int)
    ensures var t := Advance(s, r, d, now); t.kept == s.kept + Listed(d.kept) && (s.cap.None? ==> t.cap.None?)
  {
  }

  lemma NoneSurvive(cfg: Config, bar: Bar)
    ensures Survivors(cfg, bar, [], [])
  {
  }

  lemma ScanEnds(cfg: Config, bar: Bar, now: int, init: seq<Resting>, r: Resting, start: Scan)
    ensures var s := ScanOrders(cfg, bar, now, init, start);
            ScanOrders(cfg, bar, now, init + [r], start) == Advance(s, r, Decide(cfg, bar, now, s, r), now)
  {
    hide Decide, Advance;
    assert (init + [r])[..|init|] == init;
  }

  lemma {:induction false} ScanLeavesSurvivors(cfg: Config, bar: Bar, now: int, pending: seq<Resting>, start: Scan)
    requires AllSound(cfg, pending) && start.kept == [] && (cfg.participationBps.None? ==> start.cap.None?)
    ensures var s := ScanOrders(cfg, bar, now, pending, start);
            Survivors(cfg, bar, pending, s.kept) && (cfg.participationBps.None? ==> s.cap.None?)
  {
    if pending == [] {
      NoneSurvive(cfg, bar);
      hide Survivors;
    } else {
      hide Decide, Advance, ScanOrders, Sound, Survivors, Survives;
      var init, r := pending[..|pending| - 1], pending[|pending| - 1];
      assert pending == init + [r] && r in pending;
      ScanEnds(cfg, bar, now, init, r, start);
      ScanLeavesSurvivors(cfg, bar, now, init, start);
      var s := ScanOrders(cfg, bar, now, init, start);
      DecisionSurvives(cfg, bar, now, s, r);
      AdvanceParts(s, r, Decide(cfg, bar, now, s, r), now);
      OneMoreSurvivor(cfg, bar, init, r, s.kept, Decide(cfg, bar, now, s, r).kept);
    }
  }

  /** Claims leave legs as they are, but for what counts as filled. */
  ghost predicate Legs(before: seq<Resting>, after: seq<Resting>) {
    forall l :: l in after ==> exists r :: r in before && l == r.(filled := l.filled)
  }

  lemma {:induction false} ClaimLeavesLegs(resting: seq<Resting>, c: Claim, now: int)
    ensures Legs(resting, ResolveClaim(resting, c, now).0)
  {
    if resting != [] {
      var init, r := resting[..|resting| - 1], resting[|resting| - 1];
      assert resting == init + [r];
      ClaimLeavesLegs(init, c, now);
      var kept := ResolveClaim(init, c, now).0;
      forall l | l in ResolveClaim(resting, c, now).0 ensures exists q :: q in resting && l == q.(filled := l.filled) {
        if l in kept {
          var q :| q in init && l == q.(filled := l.filled);
          assert q in resting;
        } else {
          assert r in resting;
        }
      }
    }
  }

  lemma LegsOfLegs(a: seq<Resting>, b: seq<Resting>, c: seq<Resting>)
    requires Legs(a, b) && Legs(b, c)
    ensures Legs(a, c)
  {
    forall l | l in c ensures exists r :: r in a && l == r.(filled := l.filled) {
      var m :| m in b && l == m.(filled := l.filled);
      var r :| r in a && m == r.(filled := m.filled);
      assert l == r.(filled := l.filled);
    }
  }

  lemma {:induction false} ClaimsLeaveLegs(resting: seq<Resting>, claims: seq<Claim>, now: int)
    ensures Legs(resting, ResolveClaims(resting, claims, now).0)
  {
    if claims == [] {
      forall l | l in resting ensures exists r :: r in resting && l == r.(filled := l.filled) {
        assert l == l.(filled := l.filled);
      }
    } else {
      hide Legs;
      var mid := ResolveClaims(resting, claims[..|claims| - 1], now).0;
      ClaimsLeaveLegs(resting, claims[..|claims| - 1], now);
      ClaimLeavesLegs(mid, claims[|claims| - 1], now);
      LegsOfLegs(resting, mid, ResolveClaim(mid, claims[|claims| - 1], now).0);
    }
  }

  lemma LegsSurvive(cfg: Config, bar: Bar, before: seq<Resting>, kept: seq<Resting>, after: seq<Resting>)
    requires Survivors(cfg, bar, before, kept) && Legs(kept, after)
    ensures Survivors(cfg, bar, before, after)
  {
    hide SingleFill, Hits;
    forall l | l in after ensures Survivor(cfg, bar, before, l) {
      var m :| m in kept && l == m.(filled := l.filled);
      var r :| r in before && Survives(cfg, bar, r, m);
      assert Survives(cfg, bar, r, l);
    }
  }

  lemma ObserveLeavesSurvivors(cfg: Config, v: Venue, bar: Bar, now: int)
    requires GuardedConfig(cfg) && AllSound(cfg, v.resting)
    ensures Survivors(cfg, bar, v.resting, Observed(cfg, v, bar, now).0.resting)
  {
    hide ScanOrders, SettleFills, ResolveClaims, Survivors, Legs;
    var marked := Marked(v, bar);
    var s := ScanBar(cfg, marked, bar, now);
    ScanLeavesSurvivors(cfg, bar, now, v.resting, ScanStart(cfg, marked, bar));
    SettlingKeepsResting(cfg, marked.(resting := s.kept, drawn := s.drawn), s.staged, now);
    ClaimsLeaveLegs(s.kept, s.claims, now);
    LegsSurvive(cfg, bar, v.resting, s.kept, ResolveClaims(s.kept, s.claims, now).0);
  }

  // ---------------------------------------------------------------- conditions on the operations alone

  predicate BuySent(op: Op) {
    op.Submit? && op.order.side.Buy?
  }

  /** A buy that takes the price it meets: market, stop, if-touched or trailing. */
  predicate TakerSent(op: Op) {
    BuySent(op) && !op.order.kind.Passive()
  }

  /** Bars of the instrument so far. */
  function BarsOn(ops: seq<Op>, n: nat): nat {
    if ops == [] then 0
    else BarsOn(ops[..|ops| - 1], n) + (if ops[|ops| - 1].Observe? && ops[|ops| - 1].bar.instrument == n then 1 else 0)
  }

  /** Bars the order sent at i has seen when the operation at c comes. */
  function Waited(ops: seq<Op>, i: nat, c: nat): int
    requires i < c <= |ops| && ops[i].Submit?
  {
    BarsOn(ops[..c], ops[i].order.instrument) - BarsOn(ops[..i + 1], ops[i].order.instrument)
  }

  /** The operation at c ended the order sent at i, if it had not ended before: a cancel, or a live bar that hit it. */
  ghost predicate EndedAt(cfg: Config, ops: seq<Op>, i: nat, c: nat)
    requires i < c < |ops| && ops[i].Submit?
  {
    match ops[c]
    case Submit(_, _, _) => false
    case Cancel(id, _) => FreshIds(ops) && id == ops[i].id
    case Observe(bar, _) =>
      bar.instrument == ops[i].order.instrument && Waited(ops, i, c) >= cfg.latencyBars
      && SingleFill(cfg, ops[i].order) && Hits(ops[i].order, bar)
  }

  /** The order sent at i may still rest after all these operations. */
  ghost predicate MayRest(cfg: Config, ops: seq<Op>, i: nat)
    requires i < |ops| && ops[i].Submit?
  {
    forall c :: i < c < |ops| ==> !EndedAt(cfg, ops, i, c)
  }

  predicate QuietBar(bar: Bar, order: Order, close: int) {
    bar.open <= bar.high <= close && (order.kind.MarketIfTouched? ==> order.kind.trigger <= close)
  }

  /**
   * While the taker sent at i may rest, the bar at k does not trade above the close that stood when
   * the buy at j was sent, nor does the taker aim above it.
   */
  ghost predicate QuietAt(cfg: Config, ops: seq<Op>, i: nat, j: nat, k: nat)
    requires i <= j < k < |ops|
  {
    TakerSent(ops[i]) && MayRest(cfg, ops[..k], i) && BuySent(ops[j])
    && ops[k].Observe? && ops[k].bar.instrument == ops[i].order.instrument
    ==> QuietBar(ops[k].bar, ops[i].order, LastClose(ops[..j], ops[i].order.instrument))
  }

  /**
   * Takers are sent once their instrument has a close, and as long as one may rest its instrument's
   * bars do not trade above the close that stood when it, or a later buy, was sent.
   */
  ghost predicate QuietRun(cfg: Config, ops: seq<Op>) {
    && (forall k :: 0 <= k < |ops| && TakerSent(ops[k]) ==> LastClose(ops[..k], ops[k].order.instrument) > 0)
    && (forall i, j, k :: 0 <= i <= j < k < |ops| ==> QuietAt(cfg, ops, i, j, k))
  }

  // ---------------------------------------------------------------- each resting order was sent, and may rest

  /** The order resting is the one sent at i, which may rest and has waited this long. */
  ghost predicate Tracks(cfg: Config, ops: seq<Op>, i: nat, r: Resting) {
    && i < |ops| && ops[i].Submit? && ops[i].id == r.id && ops[i].order == r.order
    && MayRest(cfg, ops, i)
    && r.activateIn == Max(cfg.latencyBars - Waited(ops, i, |ops|), 0)
  }

  lemma WaitedStep(ops: seq<Op>, op: Op, i: nat, c: nat)
    requires i < c <= |ops| && ops[i].Submit?
    ensures Waited(ops + [op], i, c) == Waited(ops, i, c) && (ops + [op])[i] == ops[i]
    ensures Waited(ops + [op], i, |ops| + 1)
            == Waited(ops, i, |ops|) + (if op.Observe? && op.bar.instrument == ops[i].order.instrument then 1 else 0)
    ensures Waited(ops, i, i + 1) == 0
  {
    var all := ops + [op];
    assert all[..c] == ops[..c] && all[..i + 1] == ops[..i + 1] && all[..|ops|] == ops && all[..|ops| + 1] == all && ops[..|ops|] == ops;
  }

  lemma EndedBefore(cfg: Config, ops: seq<Op>, op: Op, i: nat, c: nat)
    requires i < c < |ops| && ops[i].Submit? && EndedAt(cfg, ops + [op], i, c)
    ensures EndedAt(cfg, ops, i, c)
  {
    WaitedStep(ops, op, i, c);
    assert (ops + [op])[c] == ops[c];
    FreshPrefix(ops, op);
    hide Waited, SingleFill, Hits, FreshIds;
  }

  lemma FreshPrefix(ops: seq<Op>, op: Op)
    ensures FreshIds(ops + [op]) ==> FreshIds(ops)
  {
    if FreshIds(ops + [op]) {
      forall i, j | 0 <= i < j < |ops| && ops[i].Submit? && ops[j].Submit? ensures ops[i].id < ops[j].id {
        assert (ops + [op])[i] == ops[i] && (ops + [op])[j] == ops[j];
      }
    }
  }

  /** One more operation that does not end the order leaves it tracked. */
  lemma TracksOn(cfg: Config, ops: seq<Op>, op: Op, i: nat, r: Resting, left: Resting)
    requires Tracks(cfg, ops, i, r) && left.id == r.id && left.order == r.order
    requires match op
             case Submit(_, _, _) => left.activateIn == r.activateIn
             case Cancel(id, _) => left.activateIn == r.activateIn && (FreshIds(ops + [op]) ==> id != r.id)
             case Observe(bar, _) => Survives(cfg, bar, r, left)
    ensures Tracks(cfg, ops + [op], i, left)
  {
    var all := ops + [op];
    WaitedStep(ops, op, i, |ops|);
    hide Waited, SingleFill, Hits, FreshIds;
    forall c | i < c < |all| ensures !EndedAt(cfg, all, i, c) {
      if c < |ops| {
        if EndedAt(cfg, all, i, c) { EndedBefore(cfg, ops, op, i, c); }
      }
    }
  }

  lemma TracksNew(cfg: Config, ops: seq<Op>, op: Op, r: Resting)
    requires op.Submit? && r == Resting(op.id, op.order, cfg.latencyBars, false, None, 0)
    ensures Tracks(cfg, ops + [op], |ops|, r)
  {
    var all := ops + [op];
    assert all[|ops|] == op && all[..|ops| + 1] == all;
  }

  /** The buy resting was sent at i, and the marks cash was last checked against are the closes at j. */
  ghost predicate SentAt(cfg: Config, ops: seq<Op>, anchor: map<nat, Shadow>, r: Resting, i: nat, j: nat) {
    && i <= j < |ops| && Tracks(cfg, ops, i, r) && BuySent(ops[j])
    && forall n: nat :: ShadowOf(anchor, n).mark == LastClose(ops[..j], n)
  }

  ghost predicate Sent(cfg: Config, ops: seq<Op>, anchor: map<nat, Shadow>, r: Resting) {
    exists i: nat, j: nat :: SentAt(cfg, ops, anchor, r, i, j)
  }

  ghost predicate AllSent(cfg: Config, cash: Option<int>, ops: seq<Op>) {
    forall r :: r in RunOps(cfg, cash, ops).0.resting && r.order.side.Buy? ==> Sent(cfg, ops, Anchor(cfg, cash, ops), r)
  }

  lemma SentStays(cfg: Config, ops: seq<Op>, op: Op, anchor: map<nat, Shadow>, r: Resting, left: Resting)
    requires Sent(cfg, ops, anchor, r) && left.id == r.id && left.order == r.order
    requires match op
             case Submit(_, _, _) => left.activateIn == r.activateIn
             case Cancel(id, _) => left.activateIn == r.activateIn && (FreshIds(ops + [op]) ==> id != r.id)
             case Observe(bar, _) => Survives(cfg, bar, r, left)
    ensures Sent(cfg, ops + [op], anchor, left)
  {
    hide LastClose, Tracks, Survives, FreshIds;
    var i: nat, j: nat :| SentAt(cfg, ops, anchor, r, i, j);
    TracksOn(cfg, ops, op, i, r, left);
    assert (ops + [op])[..j] == ops[..j];
    assert SentAt(cfg, ops + [op], anchor, left, i, j);
  }

  /** Admitting a buy anchors everything at today's closes. */
  lemma SentAnew(cfg: Config, cash: Option<int>, init: seq<Op>, op: Op, anchor: map<nat, Shadow>, r: Resting)
    requires BuySent(op)
    requires Sent(cfg, init + [op], anchor, r) || r == Resting(op.id, op.order, cfg.latencyBars, false, None, 0)
    ensures Sent(cfg, init + [op], RunOps(cfg, cash, init).0.shadows, r)
  {
    hide RunOps, Tracks;
    var ops := init + [op];
    assert ops[..|init|] == init && ops[|init|] == op;
    forall n: nat ensures ShadowOf(RunOps(cfg, cash, init).0.shadows, n).mark == LastClose(ops[..|init|], n) {
      MarkIsLastClose(cfg, cash, init, n);
    }
    hide LastClose;
    if r == Resting(op.id, op.order, cfg.latencyBars, false, None, 0) {
      TracksNew(cfg, init, op, r);
      assert SentAt(cfg, ops, RunOps(cfg, cash, init).0.shadows, r, |init|, |init|);
    } else {
      var i: nat, j: nat :| SentAt(cfg, ops, anchor, r, i, j);
      assert SentAt(cfg, ops, RunOps(cfg, cash, init).0.shadows, r, i, |init|);
    }
  }

  lemma AnchorStep(cfg: Config, cash: Option<int>, init: seq<Op>, op: Op)
    ensures var v := RunOps(cfg, cash, init).0;
            && RunOps(cfg, cash, init + [op]).0 == Exec(cfg, v, op).0
            && Anchor(cfg, cash, init + [op]) == if BuySent(op) && Rejection(cfg, v, op.order).None? then v.shadows else Anchor(cfg, cash, init)
  {
    hide Exec, Rejection;
    assert (init + [op])[..|init|] == init;
  }

  lemma SubmitKeepsSent(cfg: Config, cash: Option<int>, init: seq<Op>, op: Op)
    requires AllSent(cfg, cash, init) && op.Submit?
    ensures AllSent(cfg, cash, init + [op])
  {
    var ops, v, anchor := init + [op], RunOps(cfg, cash, init).0, Anchor(cfg, cash, init);
    AnchorStep(cfg, cash, init, op);
    SubmitEffect(cfg, v, op);
    var added := Resting(op.id, op.order, cfg.latencyBars, false, None, 0);
    assert Rejection(cfg, v, op.order).Some? ==> Exec(cfg, v, op).0 == v by { hide Rejection; }
    hide Exec, Rejection, Sent, RunOps, Anchor;
    forall r | r in RunOps(cfg, cash, ops).0.resting && r.order.side.Buy? ensures Sent(cfg, ops, Anchor(cfg, cash, ops), r) {
      assert r in v.resting || r == added;
      if r in v.resting { SentStays(cfg, init, op, anchor, r, r); }
      if BuySent(op) && Rejection(cfg, v, op.order).None? { SentAnew(cfg, cash, init, op, anchor, r); }
    }
  }

  /** With fresh ids, a canceled id no longer rests. */
  lemma CanceledIsGone(resting: seq<Resting>, id: nat, r: Resting)
    requires Ascending(resting) && r in Canceled(Venue(resting, map[], None, 0), id, 0).0.resting
    ensures r.id != id
  {
    var i := IndexOf(resting, id);
    hide IndexOf;
    if i < |resting| {
      var rest := resting[..i] + resting[i + 1..];
      var k :| 0 <= k < |rest| && rest[k] == r;
      if k >= i { assert rest[k] == resting[k + 1]; }
    } else {
      var k :| 0 <= k < |resting| && resting[k] == r;
    }
  }

  lemma CancelKeepsSent(cfg: Config, cash: Option<int>, init: seq<Op>, op: Op)
    requires AllSent(cfg, cash, init) && op.Cancel?
    ensures AllSent(cfg, cash, init + [op])
  {
    var ops, v, anchor := init + [op], RunOps(cfg, cash, init).0, Anchor(cfg, cash, init);
    AnchorStep(cfg, cash, init, op);
    FreshPrefix(init, op);
    if FreshIds(ops) { EveryRunKeepsTheBooks(cfg, cash, init); }
    hide Sent, RunOps, Anchor, FreshIds, Ascending, Books;
    forall r | r in RunOps(cfg, cash, ops).0.resting && r.order.side.Buy? ensures Sent(cfg, ops, Anchor(cfg, cash, ops), r) {
      assert r in v.resting;
      if FreshIds(ops) { CanceledIsGone(v.resting, op.id, r); }
      SentStays(cfg, init, op, anchor, r, r);
    }
  }

  lemma ObserveKeepsSent(cfg: Config, cash: Option<int>, init: seq<Op>, op: Op)
    requires GuardedConfig(cfg) && AllSound(cfg, RunOps(cfg, cash, init).0.resting) && AllSent(cfg, cash, init) && op.Observe?
    ensures AllSent(cfg, cash, init + [op])
  {
    var ops, v, anchor := init + [op], RunOps(cfg, cash, init).0, Anchor(cfg, cash, init);
    AnchorStep(cfg, cash, init, op);
    hide Sent, RunOps, Anchor, Observed, GuardedConfig, AllSound, Survives;
    ObserveLeavesSurvivors(cfg, v, op.bar, op.now);
    forall l | l in RunOps(cfg, cash, ops).0.resting && l.order.side.Buy? ensures Sent(cfg, ops, Anchor(cfg, cash, ops), l) {
      assert Survivor(cfg, op.bar, v.resting, l);
      var r :| r in v.resting && Survives(cfg, op.bar, r, l);
      assert l.id == r.id && l.order == r.order by { SurvivorIsSame(cfg, op.bar, r, l); }
      SentStays(cfg, init, op, anchor, r, l);
    }
  }

  lemma SurvivorIsSame(cfg: Config, bar: Bar, r: Resting, left: Resting)
    requires Survives(cfg, bar, r, left)
    ensures left.id == r.id && left.order == r.order
  {
  }

  lemma OpKeepsSent(cfg: Config, cash: Option<int>, init: seq<Op>, op: Op)
    requires GuardedConfig(cfg) && AllSound(cfg, RunOps(cfg, cash, init).0.resting) && AllSent(cfg, cash, init)
    ensures AllSent(cfg, cash, init + [op])
  {
    hide AllSent, RunOps, GuardedConfig, AllSound;
    match op
    case Submit(_, _, _) => SubmitKeepsSent(cfg, cash, init, op);
    case Cancel(_, _) => CancelKeepsSent(cfg, cash, init, op);
    case Observe(_, _) => ObserveKeepsSent(cfg, cash, init, op);
  }

  // ---------------------------------------------------------------- quiet runs are calm

  lemma QuietPrefix(cfg: Config, ops: seq<Op>)
    requires ops != [] && QuietRun(cfg, ops)
    ensures QuietRun(cfg, ops[..|ops| - 1])
  {
    hide LastClose, QuietBar, MayRest;
    var init := ops[..|ops| - 1];
    forall k | 0 <= k < |init| && TakerSent(init[k]) ensures LastClose(init[..k], init[k].order.instrument) > 0 {
      assert init[..k] == ops[..k] && init[k] == ops[k];
    }
    forall i, j, k | 0 <= i <= j < k < |init| ensures QuietAt(cfg, init, i, j, k) {
      assert QuietAt(cfg, ops, i, j, k) && init[..j] == ops[..j] && init[..k] == ops[..k];
    }
  }

  /** A taker that rests cannot be filled by a quiet bar above what it is reserved at. */
  lemma QuietTakerIsBounded(cfg: Config, ops: seq<Op>, anchor: map<nat, Shadow>, r: Resting)
    requires ops != [] && QuietRun(cfg, ops) && ops[|ops| - 1].Observe? && Sent(cfg, ops[..|ops| - 1], anchor, r)
    requires r.order.side.Buy? && !r.order.kind.Passive() && r.order.instrument == ops[|ops| - 1].bar.instrument
    ensures Bounded(anchor, ops[|ops| - 1].bar, r)
  {
    hide LastClose, Bounded, MayRest, Waited;
    var init, n := ops[..|ops| - 1], |ops| - 1;
    var i: nat, j: nat :| SentAt(cfg, init, anchor, r, i, j);
    assert QuietAt(cfg, ops, i, j, n) && ops[..j] == init[..j] && ops[i] == init[i] && ops[j] == init[j];
    QuietBarIsBounded(anchor, ops[n].bar, r);
  }

  /** A quiet operation is a calm one. */
  lemma QuietIsCalm(cfg: Config, cash: Option<int>, ops: seq<Op>)
    requires ops != [] && QuietRun(cfg, ops) && AllSent(cfg, cash, ops[..|ops| - 1])
    ensures CalmAfter(cfg, cash, ops[..|ops| - 1], ops[|ops| - 1])
  {
    hide RunOps, Anchor, LastClose, Bounded, Sent, QuietAt;
    var init, op := ops[..|ops| - 1], ops[|ops| - 1];
    if op.Observe? {
      forall r | r in RunOps(cfg, cash, init).0.resting ensures Bounded(Anchor(cfg, cash, init), op.bar, r) {
        if r.order.side.Buy? && !r.order.kind.Passive() && r.order.instrument == op.bar.instrument {
          QuietTakerIsBounded(cfg, ops, Anchor(cfg, cash, init), r);
        } else {
          OthersAreBounded(Anchor(cfg, cash, init), op.bar, r);
        }
      }
    }
  }

  lemma OthersAreBounded(anchor: map<nat, Shadow>, bar: Bar, r: Resting)
    requires !(r.order.side.Buy? && !r.order.kind.Passive() && r.order.instrument == bar.instrument)
    ensures Bounded(anchor, bar, r)
  {
    hide Evaluate;
  }

  lemma {:induction false} QuietRunsAreCalm(cfg: Config, start: nat, ops: seq<Op>)
    requires GuardedConfig(cfg) && (forall op :: op in ops ==> GuardedOp(op)) && QuietRun(cfg, ops)
    ensures Calm(cfg, Some(start), ops) && AllSent(cfg, Some(start), ops)
  {
    if ops != [] {
      hide Exec, GuardedConfig, GuardedOp, CalmAfter, ReserveOf, AllSound, AllSent, QuietRun, RunOps, Anchor;
      var init, op := ops[..|ops| - 1], ops[|ops| - 1];
      assert ops == init + [op];
      assert op in ops;
      QuietPrefix(cfg, ops);
      QuietRunsAreCalm(cfg, start, init);
      CalmRunsStaySolvent(cfg, start, init);
      QuietIsCalm(cfg, Some(start), ops);
      OpKeepsSent(cfg, Some(start), init, op);
      CalmExtends(cfg, Some(start), init, op);
    }
  }

  lemma CalmExtends(cfg: Config, cash: Option<int>, init: seq<Op>, op: Op)
    requires Calm(cfg, cash, init) && CalmAfter(cfg, cash, init, op)
    ensures Calm(cfg, cash, init + [op])
  {
    hide CalmAfter;
    var ops := init + [op];
    forall k | 0 <= k < |ops| ensures CalmAfter(cfg, cash, ops[..k], ops[k]) {
      if k < |init| { assert ops[..k] == init[..k] && ops[k] == init[k]; } else { assert ops[..k] == init; }
    }
  }

  /** So, by the operations alone: quiet runs never take mirrored cash below zero, whatever kinds of buys they send. */
  lemma QuietRunsStaySolvent(cfg: Config, start: nat, ops: seq<Op>)
    requires GuardedConfig(cfg) && (forall op :: op in ops ==> GuardedOp(op)) && QuietRun(cfg, ops)
    ensures var v := RunOps(cfg, Some(start), ops).0; v.cash.Some? && v.cash.value >= 0
  {
    hide RunOps, GuardedConfig, GuardedOp, ReserveOf, Calm, QuietRun, AllSent, AllGuarded, AllSound;
    QuietRunsAreCalm(cfg, start, ops);
    CalmRunsStaySolvent(cfg, start, ops);
  }

  // ---------------------------------------------------------------- buys at a limit

  ghost predicate LimitBuysOnly(ops: seq<Op>) {
    forall op :: op in ops && BuySent(op) ==> op.order.kind.Passive()
  }

  lemma LimitsAreQuiet(cfg: Config, ops: seq<Op>)
    requires LimitBuysOnly(ops)
    ensures QuietRun(cfg, ops)
  {
    hide LastClose, QuietBar, MayRest;
    forall i | 0 <= i < |ops| ensures !TakerSent(ops[i]) {
      assert ops[i] in ops;
    }
  }

  lemma LimitBuyRests(cfg: Config, ops: seq<Op>, anchor: map<nat, Shadow>, r: Resting)
    requires LimitBuysOnly(ops) && Sent(cfg, ops, anchor, r) && r.order.side.Buy?
    ensures r.order.kind.Passive()
  {
    hide LastClose, MayRest, Waited;
    var i: nat, j: nat :| SentAt(cfg, ops, anchor, r, i, j);
    assert ops[i] in ops;
  }

  lemma LimitReservesAlike(cfg: Config, a: map<nat, Shadow>, b: map<nat, Shadow>, r: Resting)
    requires r.order.side.Buy? ==> r.order.kind.Passive()
    ensures ReserveOf(cfg, a)(r) == ReserveOf(cfg, b)(r)
  {
    hide CostAt;
  }

  lemma LimitsReserveAlike(cfg: Config, cash: Option<int>, ops: seq<Op>, a: map<nat, Shadow>, b: map<nat, Shadow>)
    requires LimitBuysOnly(ops) && AllSent(cfg, cash, ops)
    ensures var resting := RunOps(cfg, cash, ops).0.resting;
            Reserved(cfg, a, resting) == Tally(resting, ReserveOf(cfg, b))
  {
    hide RunOps, Anchor, LastClose, Sent, ReserveOf, LimitBuysOnly;
    var resting := RunOps(cfg, cash, ops).0.resting;
    forall r | r in resting ensures ReserveOf(cfg, a)(r) == ReserveOf(cfg, b)(r) {
      if r.order.side.Buy? { LimitBuyRests(cfg, ops, Anchor(cfg, cash, ops), r); }
      LimitReservesAlike(cfg, a, b, r);
    }
    TallyCongruent(resting, ReserveOf(cfg, a), ReserveOf(cfg, b));
  }

  /**
   * With buys at a limit only, and whatever the bars, mirrored cash minus the cash reserved for all
   * resting buy remainders at the present marks is never negative.
   */
  lemma GuardedRunsStaySolvent(cfg: Config, start: nat, ops: seq<Op>)
    requires GuardedConfig(cfg) && (forall op :: op in ops ==> GuardedOp(op)) && LimitBuysOnly(ops)
    ensures var v := RunOps(cfg, Some(start), ops).0;
            v.cash.Some? && v.cash.value - Reserved(cfg, v.shadows, v.resting) >= 0 && v.cash.value >= 0
  {
    hide RunOps, GuardedConfig, GuardedOp, ReserveOf, Calm, QuietRun, AllSent, LimitBuysOnly, AllGuarded, AllSound;
    LimitsAreQuiet(cfg, ops);
    QuietRunsAreCalm(cfg, start, ops);
    CalmRunsStaySolvent(cfg, start, ops);
    LimitsReserveAlike(cfg, Some(start), ops, RunOps(cfg, Some(start), ops).0.shadows, Anchor(cfg, Some(start), ops));
  }

  // ---------------------------------------------------------------- how the other buys overdraw

  const SPOT := Config([Spec(false, 0)], 0, 0, 0, 0, None, 0, 0, None, None, (_: nat) => 0, map[], map[])

  function PriceBar(ts: int, price: int): Bar {
    Bar(0, ts, price, price, price, price, 1)
  }

  function BuyOf(qty: int, kind: OrderKind): Order {
    Order(0, Buy, qty, kind, Gtc, false, false, None)
  }

  /** On a costless venue a lone buy that triggers at `price` fills whole and takes exactly that price from cash. */
  lemma LoneBuyDecision(r: Resting, bar: Bar, now: int, start: Scan, price: int)
    requires r.order == BuyOf(r.order.qty, r.order.kind) && r.order.qty > 0 && r.filled == 0 && r.activateIn == 0
    requires !r.order.kind.Passive() && bar.instrument == 0 && Evaluate(r, bar).1 == FillAt(price) && start.cap == None
    ensures var d := Decide(SPOT, bar, now, start, r);
            && d.kept == None && d.ended == None && !d.drew
            && d.staged == Some(Staged(r.id, 0, Buy, price, r.order.qty, true))
  {
    EvaluateKeeps(r, bar);
    hide Evaluate;
  }

  lemma LoneBuyFills(v: Venue, qty: int, kind: OrderKind, bar: Bar, now: int, price: int)
    requires var r := Resting(0, BuyOf(qty, kind), 0, false, None, 0);
             v.resting == [r] && v.cash.Some? && qty > 0 && !kind.Passive() && bar.instrument == 0 && Evaluate(r, bar).1 == FillAt(price)
    ensures Observed(SPOT, v, bar, now).0.cash == Some(v.cash.value - price * qty)
  {
    hide Evaluate, ScanOrders, SettleFills, Decide, Tally, ApplyShadow;
    var r := Resting(0, BuyOf(qty, kind), 0, false, None, 0);
    var marked := Marked(v, bar);
    var start := ScanStart(SPOT, marked, bar);
    var f := Staged(0, 0, Buy, price, qty, true);
    LoneBuyDecision(r, bar, now, start, price);
    ScanSingle(SPOT, bar, now, r, start);
    SettleSingle(SPOT, marked.(resting := []), f, now);
    assert FeeCosts(SPOT, 0, price, qty) == [];
    var s := ScanBar(SPOT, marked, bar, now);
    assert s == Advance(start, r, Decide(SPOT, bar, now, start, r), now);
    assert s.kept == [] && s.staged == [f] && s.claims == [];
  }

  lemma SentAlone(v: Venue, qty: int, kind: OrderKind, now: int)
    requires v.resting == [] && v.cash.Some? && qty > 0 && !kind.Passive()
    requires ShadowOf(v.shadows, 0).mark * qty <= v.cash.value
    ensures Exec(SPOT, v, Submit(0, BuyOf(qty, kind), now)).0 == v.(resting := [Resting(0, BuyOf(qty, kind), 0, false, None, 0)])
  {
    assert Reserved(SPOT, v.shadows, []) == 0;
  }

  lemma BarAlone(cash: int, bar: Bar, now: int)
    requires bar.instrument == 0
    ensures Exec(SPOT, Opened(Some(cash)), Observe(bar, now)).0 == Venue([], map[0 := Shadow(0, 0, 0, bar.close)], Some(cash), 0)
  {
  }

  lemma RanOne(cash: Option<int>, a: Op)
    ensures RunOps(SPOT, cash, [a]).0 == Exec(SPOT, Opened(cash), a).0
  {
    hide Exec;
    assert [a][..0] == [];
    assert RunOps(SPOT, cash, []).0 == Opened(cash);
  }

  lemma RanTwo(cash: Option<int>, a: Op, b: Op)
    ensures RunOps(SPOT, cash, [a, b]).0 == Exec(SPOT, RunOps(SPOT, cash, [a]).0, b).0
  {
    hide Exec;
    assert [a, b][..1] == [a];
  }

  lemma RanThree(cash: Option<int>, a: Op, b: Op, c: Op)
    ensures RunOps(SPOT, cash, [a, b, c]).0 == Exec(SPOT, RunOps(SPOT, cash, [a, b]).0, c).0
  {
    hide Exec;
    assert [a, b, c][..2] == [a, b];
  }

  /**
   * A market buy is checked against the last close but fills at the next open: whenever that opens
   * above, cash that was just enough goes negative.
   */
  lemma MarketBuyCanOverdraw(close: int, open: int, qty: int)
    requires 0 < close < open && qty > 0
    ensures var ops := [Observe(PriceBar(1, close), 1), Submit(0, BuyOf(qty, Market), 1), Observe(PriceBar(2, open), 2)];
            var cash := RunOps(SPOT, Some(close * qty), ops).0.cash;
            cash == Some(close * qty - open * qty) && cash.value < 0
  {
    hide RunOps, Exec;
    var cash, order := Some(close * qty), BuyOf(qty, Market);
    var a, b, c := Observe(PriceBar(1, close), 1), Submit(0, order, 1), Observe(PriceBar(2, open), 2);
    RanOne(cash, a);
    RanTwo(cash, a, b);
    RanThree(cash, a, b, c);
    BarAlone(close * qty, PriceBar(1, close), 1);
    var v := RunOps(SPOT, cash, [a]).0;
    SentAlone(v, qty, Market, 1);
    var w := RunOps(SPOT, cash, [a, b]).0;
    LoneBuyFills(w, qty, Market, PriceBar(2, open), 2, open);
    ExecIsObserved(SPOT, w, PriceBar(2, open), 2);
    CostsMore(close, open, qty);
  }

  /** Before the instrument's first bar nothing is reserved at all: the first open takes whatever it costs. */
  lemma UnmarkedBuyCanOverdraw(start: nat, open: int, qty: int)
    requires qty > 0 && start < open * qty
    ensures var ops := [Submit(0, BuyOf(qty, Market), 1), Observe(PriceBar(2, open), 2)];
            var cash := RunOps(SPOT, Some(start), ops).0.cash;
            cash == Some(start - open * qty) && cash.value < 0
  {
    hide RunOps, Exec;
    var cash, order := Some(start), BuyOf(qty, Market);
    var a, b := Submit(0, order, 1), Observe(PriceBar(2, open), 2);
    RanOne(cash, a);
    RanTwo(cash, a, b);
    SentAlone(Opened(cash), qty, Market, 1);
    var w := RunOps(SPOT, cash, [a]).0;
    LoneBuyFills(w, qty, Market, PriceBar(2, open), 2, open);
    ExecIsObserved(SPOT, w, PriceBar(2, open), 2);
  }

  /** A stop buy is reserved at the mark below its trigger: when it triggers, without any gap, it costs more. */
  lemma StopBuyCanOverdraw(close: int, trigger: int, qty: int)
    requires 0 < close < trigger && qty > 0
    ensures var ops := [Observe(PriceBar(1, close), 1), Submit(0, BuyOf(qty, Stop(trigger)), 1),
                        Observe(Bar(0, 2, close, trigger, close, trigger, 1), 2)];
            var cash := RunOps(SPOT, Some(close * qty), ops).0.cash;
            cash == Some(close * qty - trigger * qty) && cash.value < 0
  {
    hide RunOps, Exec;
    var cash, order := Some(close * qty), BuyOf(qty, Stop(trigger));
    var bar := Bar(0, 2, close, trigger, close, trigger, 1);
    var a, b, c := Observe(PriceBar(1, close), 1), Submit(0, order, 1), Observe(bar, 2);
    RanOne(cash, a);
    RanTwo(cash, a, b);
    RanThree(cash, a, b, c);
    BarAlone(close * qty, PriceBar(1, close), 1);
    var v := RunOps(SPOT, cash, [a]).0;
    SentAlone(v, qty, Stop(trigger), 1);
    var w := RunOps(SPOT, cash, [a, b]).0;
    LoneBuyFills(w, qty, Stop(trigger), bar, 2, trigger);
    ExecIsObserved(SPOT, w, bar, 2);
    CostsMore(close, trigger, qty);
  }

  lemma CostsMore(a: int, b: int, qty: int)
    requires a < b && qty > 0
    ensures a * qty < b * qty
  {
    MulMonotone(a + 1, b, qty);
    assert (a + 1) * qty == a * qty + qty;
  }

  lemma ExecIsObserved(cfg: Config, v: Venue, bar: Bar, now: int)
    ensures Exec(cfg, v, Observe(bar, now)) == Observed(cfg, v, bar, now)
  {
  }
}
