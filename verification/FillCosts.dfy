/**
 * What a fill costs: floored fees, slippage and impact, which are always adverse and grow with size,
 * and exactly when the estimate the buying-power guard reserves covers a buy.
 */
module FillCosts {
  import opened Prelude
  import opened Trading
  import opened Exchange

  /** Rates between nothing and the whole. */
  predicate RatesInRange(cfg: Config) {
    0 <= cfg.feeBps <= 10_000 && 0 <= cfg.slippageBps <= 10_000 && 0 <= cfg.impactBps <= 10_000
  }

  // ---------------------------------------------------------------- fees

  lemma CostMonotone(cfg: Config, price: int, limit: int, qty: int)
    requires 0 <= cfg.feeBps && qty >= 0 && price <= limit
    ensures CostAt(cfg, price, qty) <= CostAt(cfg, limit, qty)
  {
    MulMonotone(price, limit, qty);
    MulMonotone(price * qty, limit * qty, cfg.feeBps);
    TruncDivMonotone(price * qty * cfg.feeBps, limit * qty * cfg.feeBps, 10_000);
  }

  /** Fees are floored, so the cost of a whole is at least the sum of the costs of its parts. */
  lemma CostSplits(cfg: Config, limit: int, part: int, rest: int)
    requires 0 <= cfg.feeBps && limit >= 0 && part >= 0 && rest >= 0
    ensures 0 <= CostAt(cfg, limit, rest) && CostAt(cfg, limit, part) + CostAt(cfg, limit, rest) <= CostAt(cfg, limit, part + rest)
  {
    var a, b := limit * part, limit * rest;
    assert limit * (part + rest) == a + b;
    assert a >= 0 && b >= 0;
    FeeScales(a, b, cfg.feeBps);
    TruncDivSuperadditive(a * cfg.feeBps, b * cfg.feeBps, 10_000);
    TruncDivBounds(b * cfg.feeBps, 10_000);
  }

  lemma FeeScales(a: int, b: int, fee: int)
    requires a >= 0 && b >= 0 && fee >= 0
    ensures (a + b) * fee == a * fee + b * fee && a * fee >= 0 && b * fee >= 0
  {
  }

  /** A fee of at most the whole never exceeds the proceeds. */
  lemma FeeBelowProceeds(amount: int, bps: int)
    requires amount >= 0 && 0 <= bps <= 10_000
    ensures 0 <= MulBps(amount, bps) <= amount
  {
    MulMonotone(bps, 10_000, amount);
    assert bps * amount == amount * bps;
    FeeScales(amount, 0, bps);
    TruncDivMonotone(amount * bps, amount * 10_000, 10_000);
    TruncDivMonotone(0, amount * bps, 10_000);
  }

  /** Adverse slippage and impact of at most the whole never make a non-negative price negative. */
  lemma SellPriceNonNegative(cfg: Config, base: int, qty: int, volume: int)
    requires RatesInRange(cfg) && base >= 0
    ensures FillPrice(cfg, base, Sell, qty, volume) >= 0
  {
    FeeBelowProceeds(base, cfg.slippageBps);
    var slipped := Slipped(cfg, base, Sell);
    assert slipped >= 0;
    if cfg.impactBps != 0 && volume > 0 && qty > 0 {
      FeeBelowProceeds(slipped, cfg.impactBps);
      var share := Min((qty * 10_000) / volume, 10_000);
      ShareInRange(qty, volume);
      FeeBelowProceeds(MulBps(slipped, cfg.impactBps), share);
    }
  }

  lemma ShareInRange(qty: int, volume: int)
    requires qty > 0 && volume > 0
    ensures 0 <= Min((qty * 10_000) / volume, 10_000) <= 10_000
  {
  }

  // ---------------------------------------------------------------- slippage and impact

  lemma ShareGrows(amount: int, share: int, more: int)
    requires amount >= 0 && 0 <= share <= more
    ensures 0 <= MulBps(amount, share) <= MulBps(amount, more)
  {
    MulMonotone(share, more, amount);
    MulMonotone(0, share, amount);
    TruncDivMonotone(amount * share, amount * more, 10_000);
    TruncDivMonotone(0, amount * share, 10_000);
  }

  lemma AmountGrows(amount: int, more: int, share: int)
    requires 0 <= amount <= more && share >= 0
    ensures MulBps(amount, share) <= MulBps(more, share)
  {
    MulMonotone(amount, more, share);
    TruncDivMonotone(amount * share, more * share, 10_000);
  }

  /** The part of the full impact that a fill of this share of the bar's volume suffers. */
  function Impact(cfg: Config, slipped: int, qty: int, volume: int): int
    requires volume > 0
  {
    MulBps(MulBps(slipped, cfg.impactBps), Min((qty * 10_000) / volume, 10_000))
  }

  lemma ImpactGrows(cfg: Config, slipped: int, qty: int, more: int, volume: int)
    requires RatesInRange(cfg) && slipped >= 0 && 0 < qty <= more && volume > 0
    ensures 0 <= Impact(cfg, slipped, qty, volume) <= Impact(cfg, slipped, more, volume) <= MulBps(slipped, cfg.impactBps) <= slipped
  {
    var full := MulBps(slipped, cfg.impactBps);
    FeeBelowProceeds(slipped, cfg.impactBps);
    DivMonotone(qty * 10_000, more * 10_000, volume);
    var share, wider := Min((qty * 10_000) / volume, 10_000), Min((more * 10_000) / volume, 10_000);
    ShareInRange(qty, volume);
    ShareGrows(full, share, wider);
    FeeBelowProceeds(full, wider);
  }

  /** Slippage is adverse: a buy pays no less than the base, a sell receives no more, nobody a negative price. */
  lemma SlippageIsAdverse(cfg: Config, base: int, side: Side)
    requires RatesInRange(cfg) && base >= 0
    ensures if side.Buy? then base <= Slipped(cfg, base, side) <= 2 * base else 0 <= Slipped(cfg, base, side) <= base
  {
    FeeBelowProceeds(base, cfg.slippageBps);
  }

  /** So is impact, and it is worse for the larger of two fills. */
  lemma LargerFillsPayMore(cfg: Config, base: int, side: Side, qty: int, more: int, volume: int)
    requires RatesInRange(cfg) && base >= 0 && 0 < qty <= more
    ensures var small, large := FillPrice(cfg, base, side, qty, volume), FillPrice(cfg, base, side, more, volume);
            if side.Buy? then base <= small <= large else 0 <= large <= small <= base
  {
    SlippageIsAdverse(cfg, base, side);
    var slipped := Slipped(cfg, base, side);
    if cfg.impactBps != 0 && volume > 0 {
      ImpactGrows(cfg, slipped, qty, more, volume);
      ImpactIsAdded(cfg, base, side, qty, volume);
      ImpactIsAdded(cfg, base, side, more, volume);
    }
  }

  lemma ImpactIsAdded(cfg: Config, base: int, side: Side, qty: int, volume: int)
    requires cfg.impactBps != 0 && volume > 0 && qty > 0
    ensures FillPrice(cfg, base, side, qty, volume) == Slipped(cfg, base, side) + side.Sign() * Impact(cfg, Slipped(cfg, base, side), qty, volume)
  {
    hide TruncDiv, Slipped;
  }

  // ---------------------------------------------------------------- the exact price

  /** x is n ten-thousandths, truncated toward zero. */
  predicate Truncates(x: int, n: int) {
    if n >= 0 then 10_000 * x <= n < 10_000 * (x + 1) else 10_000 * (x - 1) < n <= 10_000 * x
  }

  lemma TruncatesOnce(x: int, y: int, n: int)
    requires Truncates(x, n) && Truncates(y, n)
    ensures x == y
  {
  }

  lemma BpsTruncates(amount: int, bps: int)
    ensures Truncates(MulBps(amount, bps), amount * bps)
  {
    TruncDivBounds(amount * bps, 10_000);
    assert 10_000 * MulBps(amount, bps) == MulBps(amount, bps) * 10_000;
  }

  /** The fee: the basis-point share of the amount, truncated, if there is one. */
  predicate IsFee(cfg: Config, costs: seq<int>, amount: int) {
    if cfg.feeBps == 0 then costs == [] else |costs| == 1 && Truncates(costs[0], amount * cfg.feeBps)
  }

  lemma FeeIsExact(cfg: Config, instrument: nat, price: int, qty: int)
    requires instrument < |cfg.specs|
    ensures IsFee(cfg, FeeCosts(cfg, instrument, price, qty), price * qty)
  {
    BpsTruncates(price * qty, cfg.feeBps);
    hide MulBps;
  }

  /** How far a taker's price is from its base: slippage, the impact of a whole bar's volume, the share of it taken, and its part of the impact. */
  datatype Adversity = Adversity(slip: int, full: int, share: int, impact: int)

  /** The fill's share of the bar's volume in basis points, rounded down, never above the whole. */
  predicate IsShare(share: int, qty: int, volume: int) {
    if volume <= 0 then share == 0
    else if qty >= volume then share == 10_000
    else share * volume <= qty * 10_000 < (share + 1) * volume
  }

  /** The price is adverse by the slippage on the base and by the fill's share of the impact on the slipped price. */
  predicate TakerPrice(cfg: Config, base: int, side: Side, qty: int, volume: int, price: int, a: Adversity) {
    && Truncates(a.slip, base * cfg.slippageBps)
    && Truncates(a.full, (base + side.Sign() * a.slip) * cfg.impactBps)
    && IsShare(a.share, qty, volume)
    && Truncates(a.impact, a.full * a.share)
    && price == base + side.Sign() * (a.slip + a.impact)
  }

  lemma SlippageIsExact(cfg: Config, base: int, side: Side) returns (slip: int)
    ensures Truncates(slip, base * cfg.slippageBps) && Slipped(cfg, base, side) == base + side.Sign() * slip
  {
    slip := MulBps(base, cfg.slippageBps);
    BpsTruncates(base, cfg.slippageBps);
    if cfg.slippageBps == 0 { TruncatesOnce(slip, 0, base * 0); }
  }

  lemma ShareIsExact(qty: int, volume: int)
    requires qty > 0 && volume > 0
    ensures IsShare(Min((qty * 10_000) / volume, 10_000), qty, volume)
  {
    var q := (qty * 10_000) / volume;
    assert q * volume <= qty * 10_000 < q * volume + volume;
    assert (q + 1) * volume == q * volume + volume;
    if qty >= volume {
      MulMonotone(volume, qty, 10_000);
      if q < 10_000 { MulMonotone(q + 1, 10_000, volume); }
    } else {
      if q >= 10_000 { MulMonotone(10_000, q, volume); }
    }
  }

  /** A taker's price, to the unit, for every base, rate, size and volume. */
  lemma FillPriceIsExact(cfg: Config, base: int, side: Side, qty: int, volume: int) returns (a: Adversity)
    requires qty > 0
    ensures TakerPrice(cfg, base, side, qty, volume, FillPrice(cfg, base, side, qty, volume), a)
  {
    var slip := SlippageIsExact(cfg, base, side);
    var slipped := Slipped(cfg, base, side);
    var full := MulBps(slipped, cfg.impactBps);
    BpsTruncates(slipped, cfg.impactBps);
    hide Slipped;
    if cfg.impactBps == 0 || volume <= 0 {
      var share := if volume <= 0 then 0 else Min((qty * 10_000) / volume, 10_000);
      if volume > 0 { ShareIsExact(qty, volume); }
      a := Adversity(slip, full, share, 0);
      assert cfg.impactBps == 0 ==> full == 0 by { if cfg.impactBps == 0 { TruncatesOnce(full, 0, slipped * 0); } }
      assert full * share == 0;
    } else {
      var share := Min((qty * 10_000) / volume, 10_000);
      ShareIsExact(qty, volume);
      BpsTruncates(full, share);
      ImpactIsAdded(cfg, base, side, qty, volume);
      a := Adversity(slip, full, share, MulBps(full, share));
    }
  }

  lemma OneShare(share: int, other: int, qty: int, volume: int)
    requires IsShare(share, qty, volume) && IsShare(other, qty, volume)
    ensures share == other
  {
    if volume > 0 && share < other { MulMonotone(share + 1, other, volume); }
    if volume > 0 && other < share { MulMonotone(other + 1, share, volume); }
  }

  /** And there is only one such price. */
  lemma OneTakerPrice(cfg: Config, base: int, side: Side, qty: int, volume: int, price: int, a: Adversity, other: int, b: Adversity)
    requires TakerPrice(cfg, base, side, qty, volume, price, a) && TakerPrice(cfg, base, side, qty, volume, other, b)
    ensures price == other
  {
    TruncatesOnce(a.slip, b.slip, base * cfg.slippageBps);
    TruncatesOnce(a.full, b.full, (base + side.Sign() * a.slip) * cfg.impactBps);
    OneShare(a.share, b.share, qty, volume);
    TruncatesOnce(a.impact, b.impact, a.full * a.share);
  }

  // ---------------------------------------------------------------- the guard's estimate

  /** The price a buy is reserved at: its limit, or its mark with slippage and the full impact; none without a mark. */
  function Ceiling(cfg: Config, shadows: map<nat, Shadow>, order: Order): int {
    if order.kind.Passive() then
      order.kind.limit
    else
      var mark := ShadowOf(shadows, order.instrument).mark;
      if mark <= 0 then 0 else Slipped(cfg, mark, Buy) + MulBps(Slipped(cfg, mark, Buy), Max(cfg.impactBps, 0))
  }

  /** A buy's ceiling to the unit: its limit, or the mark with the slippage and the whole impact on it. */
  lemma CeilingIsExact(cfg: Config, shadows: map<nat, Shadow>, order: Order) returns (slip: int, full: int)
    ensures var mark, ceiling := ShadowOf(shadows, order.instrument).mark, Ceiling(cfg, shadows, order);
            if order.kind.Passive() then ceiling == order.kind.limit
            else if mark <= 0 then ceiling == 0
            else Truncates(slip, mark * cfg.slippageBps) && Truncates(full, (mark + slip) * Max(cfg.impactBps, 0)) && ceiling == mark + slip + full
  {
    var mark := ShadowOf(shadows, order.instrument).mark;
    slip := SlippageIsExact(cfg, mark, Buy);
    full := MulBps(mark + slip, Max(cfg.impactBps, 0));
    BpsTruncates(mark + slip, Max(cfg.impactBps, 0));
    hide Slipped, MulBps;
  }

  /** The guard has a price for the order. */
  predicate Priced(shadows: map<nat, Shadow>, order: Order) {
    order.kind.Passive() || ShadowOf(shadows, order.instrument).mark > 0
  }

  /** A buy is reserved at its ceiling; one with no price is not reserved at all. */
  lemma ReservedAtCeiling(cfg: Config, shadows: map<nat, Shadow>, order: Order, qty: int)
    requires order.side.Buy?
    ensures BuyCost(cfg, shadows, order, qty) == if Priced(shadows, order) then Some(CostAt(cfg, Ceiling(cfg, shadows, order), qty)) else None
  {
    hide Slipped, TruncDiv, CostAt;
  }

  lemma CostStrictlyMonotone(cfg: Config, price: int, more: int, qty: int)
    requires 0 <= cfg.feeBps && qty > 0 && price < more
    ensures CostAt(cfg, price, qty) < CostAt(cfg, more, qty)
  {
    CostMonotone(cfg, price, more, qty);
    MulMonotone(price + 1, more, qty);
    assert (price + 1) * qty == price * qty + qty;
    MulMonotone(price * qty, more * qty, cfg.feeBps);
    TruncDivMonotone(price * qty * cfg.feeBps, more * qty * cfg.feeBps, 10_000);
  }

  /** What is reserved for a buy covers a fill exactly when there is a price to reserve at and the fill's is no higher. */
  lemma ReserveCoversExactly(cfg: Config, shadows: map<nat, Shadow>, order: Order, price: int, qty: int)
    requires 0 <= cfg.feeBps && order.side.Buy? && qty > 0
    ensures var reserve := BuyCost(cfg, shadows, order, qty);
            reserve.Some? && CostAt(cfg, price, qty) <= reserve.value
            <==> Priced(shadows, order) && price <= Ceiling(cfg, shadows, order)
  {
    ReservedAtCeiling(cfg, shadows, order, qty);
    hide BuyCost, Ceiling, CostAt, Priced;
    var ceiling := Ceiling(cfg, shadows, order);
    if price <= ceiling {
      CostMonotone(cfg, price, ceiling, qty);
    } else {
      CostStrictlyMonotone(cfg, ceiling, price, qty);
    }
  }

  /** A taker fill never exceeds its ceiling when its base is at most the mark; it always does when the base is above the ceiling. */
  lemma TakerBelowCeiling(cfg: Config, shadows: map<nat, Shadow>, order: Order, base: int, qty: int, volume: int)
    requires RatesInRange(cfg) && order.side.Buy? && !order.kind.Passive() && 0 < qty
    ensures var price, ceiling := FillPrice(cfg, base, Buy, qty, volume), Ceiling(cfg, shadows, order);
            && ceiling >= 0
            && (base <= ShadowOf(shadows, order.instrument).mark ==> price <= ceiling)
            && (base > ceiling ==> price > ceiling)
  {
    var mark := ShadowOf(shadows, order.instrument).mark;
    if mark > 0 {
      SlippageIsAdverse(cfg, mark, Buy);
      FeeBelowProceeds(Slipped(cfg, mark, Buy), cfg.impactBps);
    }
    if base < 0 {
      NegativeBase(cfg, base, qty, volume);
    } else {
      LargerFillsPayMore(cfg, base, Buy, qty, qty, volume);
      if base <= mark { FillPriceBelow(cfg, base, mark, qty, volume); }
    }
    hide FillPrice, MulBps, Slipped;
  }

  lemma NegativeBase(cfg: Config, base: int, qty: int, volume: int)
    requires RatesInRange(cfg) && base < 0 && 0 < qty
    ensures FillPrice(cfg, base, Buy, qty, volume) < 0
  {
    NegativeShare(base, cfg.slippageBps);
    var slipped := Slipped(cfg, base, Buy);
    assert slipped < 0;
    if cfg.impactBps != 0 && volume > 0 {
      ImpactIsAdded(cfg, base, Buy, qty, volume);
      NegativeShare(slipped, cfg.impactBps);
      ShareInRange(qty, volume);
      NegativeShare(MulBps(slipped, cfg.impactBps), Min((qty * 10_000) / volume, 10_000));
    }
  }

  lemma NegativeShare(amount: int, bps: int)
    requires amount <= 0 && bps >= 0
    ensures MulBps(amount, bps) <= 0
  {
    MulMonotone(amount, 0, bps);
    TruncDivMonotone(amount * bps, 0, 10_000);
  }

  lemma FillPriceBelow(cfg: Config, base: int, mark: int, qty: int, volume: int)
    requires RatesInRange(cfg) && 0 <= base <= mark && 0 < qty
    ensures FillPrice(cfg, base, Buy, qty, volume) <= Slipped(cfg, mark, Buy) + MulBps(Slipped(cfg, mark, Buy), cfg.impactBps)
  {
    AmountGrows(base, mark, cfg.slippageBps);
    SlippageIsAdverse(cfg, base, Buy);
    var low, high := Slipped(cfg, base, Buy), Slipped(cfg, mark, Buy);
    assert 0 <= low <= high;
    AmountGrows(low, high, cfg.impactBps);
    FeeBelowProceeds(low, cfg.impactBps);
    if cfg.impactBps != 0 && volume > 0 {
      ImpactIsAdded(cfg, base, Buy, qty, volume);
      ImpactGrows(cfg, low, qty, qty, volume);
    }
  }

  /** With no slippage and no impact, a taker's fill is covered exactly when there is a mark and its price is no higher. */
  lemma UnslippedReserve(cfg: Config, shadows: map<nat, Shadow>, order: Order, base: int, qty: int, volume: int)
    requires 0 <= cfg.feeBps && cfg.slippageBps == 0 && cfg.impactBps == 0
    requires order.side.Buy? && !order.kind.Passive() && qty > 0
    ensures var reserve, mark := BuyCost(cfg, shadows, order, qty), ShadowOf(shadows, order.instrument).mark;
            reserve.Some? && CostAt(cfg, FillPrice(cfg, base, Buy, qty, volume), qty) <= reserve.value <==> 0 < mark && base <= mark
  {
    ReserveCoversExactly(cfg, shadows, order, FillPrice(cfg, base, Buy, qty, volume), qty);
    hide BuyCost, CostAt;
  }
}
