/** Orders, bars and account events: the vocabulary the engine, the venue and the portfolio share. */
module Trading {
  import opened Prelude

  datatype Side = Buy | Sell {
    function Sign(): int {
      if Buy? then 1 else -1
    }

    function Opposite(): Side {
      if Buy? then Sell else Buy
    }
  }

  datatype TrailKind = Absolute(offset: int) | Percent(bps: nat)

  datatype OrderKind =
    | Market
    | Limit(limit: int)
    | Stop(trigger: int)
    | StopLimit(trigger: int, limit: int)
    | MarketIfTouched(trigger: int)
    | TrailingStop(trail: TrailKind)
  {
    /** Kinds that rest at a limit price and fill no worse than it. */
    predicate Passive() {
      Limit? || StopLimit?
    }

    /** Kinds that wait for a trigger before they act. */
    predicate Conditional() {
      Stop? || StopLimit? || MarketIfTouched? || TrailingStop?
    }
  }

  datatype TimeInForce = Gtc | Ioc | Fok

  datatype Order = Order(
    instrument: nat,
    side: Side,
    qty: int,
    kind: OrderKind,
    tif: TimeInForce,
    reduceOnly: bool,
    postOnly: bool,
    group: Option<nat>)

  function MarketOrder(instrument: nat, side: Side, qty: int): Order {
    Order(instrument, side, qty, Market, Gtc, false, false, None)
  }

  datatype Bar = Bar(instrument: nat, ts: int, open: int, high: int, low: int, close: int, volume: int)

  datatype RejectReason = InsufficientFunds | InvalidOrder | WouldIncreasePosition

  datatype CancelReason = Requested | OcoTriggered | VenueCanceled

  datatype AccountEvent =
    | OrderAccepted(id: nat, ts: int)
    | OrderRejected(id: nat, reject: RejectReason, ts: int)
    | OrderTriggered(id: nat, ts: int)
    | Fill(id: nat, instrument: nat, side: Side, price: int, qty: int, costs: seq<int>, complete: bool, ts: int)
    | FundingSettlement(instrument: nat, cost: int, rate: int, ts: int)
    | Liquidation(instrument: nat, side: Side, price: int, qty: int, costs: seq<int>, ts: int)
    | OrderCanceled(id: nat, cancel: CancelReason, ts: int)
    | OrderCancelRejected(id: nat, ts: int)
    | OrderExpired(id: nat, ts: int)
    | Resync(scope: Option<nat>, ts: int)
  {
    /** The event that ends an order's life at the venue. */
    predicate Terminal() {
      OrderCanceled? || OrderExpired? || (Fill? && complete)
    }
  }

  function Total(costs: seq<int>): int {
    if costs == [] then 0 else Total(costs[..|costs| - 1]) + costs[|costs| - 1]
  }

  /** Basis-point share of an amount, truncated toward zero (a fee). */
  function MulBps(amount: int, bps: int): int {
    TruncDiv(amount * bps, 10_000)
  }

  /** Share at the funding-rate scale of eight decimals, truncated toward zero. */
  function MulRate(amount: int, rate: int): int {
    TruncDiv(amount * rate, 100_000_000)
  }

  /** A constant basis-point rate widened to the funding scale charges exactly the basis-point fee. */
  lemma MulRateWidensBps(amount: int, bps: int)
    ensures MulRate(amount, bps * 10_000) == MulBps(amount, bps)
  {
    var n := amount * bps;
    assert amount * (bps * 10_000) == n * 10_000;
    if n >= 0 {
      assert (n * 10_000) / 100_000_000 == n / 10_000;
    } else {
      assert ((-n) * 10_000) / 100_000_000 == (-n) / 10_000;
    }
  }
}
