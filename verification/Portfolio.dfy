/**
 * Account state derived from the account-event stream alone: the fold over events, the class
 * that performs it in place, and the two ways the engine totals equity.
 */
module Portfolio {
  import opened Prelude
  import opened Trading
  import opened AverageCost

  datatype FillRecord = FillRecord(id: nat, instrument: nat, side: Side, price: int, qty: int, fee: int, ts: int)

  datatype Account = Account(
    cash: int,
    realized: int,
    tradingFees: int,
    fundingNet: int,
    liquidationPnl: int,
    positions: seq<Position>,
    held: seq<nat>,
    fills: seq<FillRecord>,
    open: seq<nat>,
    lastFunding: seq<Option<int>>)

  function NewAccount(instruments: nat, cash: int): Account {
    Account(cash, 0, 0, 0, 0, seq(instruments, _ => FLAT), [], [], [], seq(instruments, _ => None))
  }

  /** Position, cash and fee effect of a trade. */
  function Settled(a: Account, instrument: nat, side: Side, price: int, qty: int, costs: seq<int>): Account {
    var fee, signed := Total(costs), side.Sign() * qty;
    var b :=
      if instrument < |a.positions| then
        var before := a.positions[instrument];
        var after := NextPosition(before, signed, price);
        a.(realized := a.realized + RealizedBy(before, signed, price),
           positions := a.positions[instrument := after],
           held := if (before.net != 0) == (after.net != 0) then a.held
                   else if after.net != 0 then a.held + [instrument]
                   else Without(a.held, instrument))
      else
        a;
    b.(cash := a.cash - signed * price - fee, tradingFees := a.tradingFees + fee)
  }

  function Applied(a: Account, e: AccountEvent): Account {
    match e
    case Fill(id, instrument, side, price, qty, costs, complete, ts) =>
      var b := Settled(a, instrument, side, price, qty, costs);
      b.(fills := a.fills + [FillRecord(id, instrument, side, price, qty, Total(costs), ts)],
         open := if complete then Without(a.open, id) else a.open)
    case OrderAccepted(id, _) => a.(open := a.open + [id])
    case OrderCanceled(id, _, _) => a.(open := Without(a.open, id))
    case OrderRejected(id, _, _) => a.(open := Without(a.open, id))
    case OrderExpired(id, _) => a.(open := Without(a.open, id))
    case Liquidation(instrument, side, price, qty, costs, _) =>
      var b := Settled(a, instrument, side, price, qty, costs);
      b.(liquidationPnl := a.liquidationPnl + (b.realized - a.realized))
    case FundingSettlement(instrument, cost, rate, _) =>
      a.(cash := a.cash - cost,
         fundingNet := a.fundingNet + cost,
         lastFunding := if instrument < |a.lastFunding| then a.lastFunding[instrument := Some(rate)] else a.lastFunding)
    case OrderTriggered(_, _) => a
    case OrderCancelRejected(_, _) => a
    case Resync(_, _) => a
  }

  function AppliedAll(a: Account, events: seq<AccountEvent>): Account {
    if events == [] then a else Applied(AppliedAll(a, events[..|events| - 1]), events[|events| - 1])
  }

  lemma {:induction false} AppliedConcat(a: Account, e: seq<AccountEvent>, f: seq<AccountEvent>)
    ensures AppliedAll(a, e + f) == AppliedAll(AppliedAll(a, e), f)
  {
    if f == [] {
      assert e + f == e;
    } else {
      assert (e + f)[..|e + f| - 1] == e + f[..|f| - 1];
      AppliedConcat(a, e, f[..|f| - 1]);
    }
  }

  // ---------------------------------------------------------------- what the totals mean

  function CashFlow(): AccountEvent -> int {
    (e: AccountEvent) =>
      if e.Fill? || e.Liquidation? then -(e.side.Sign() * e.qty * e.price) - Total(e.costs)
      else if e.FundingSettlement? then -e.cost
      else 0
  }

  function TradingCost(): AccountEvent -> int {
    (e: AccountEvent) => if e.Fill? || e.Liquidation? then Total(e.costs) else 0
  }

  function FundingCost(): AccountEvent -> int {
    (e: AccountEvent) => if e.FundingSettlement? then e.cost else 0
  }

  function BoughtOn(i: nat): AccountEvent -> int {
    (e: AccountEvent) => if (e.Fill? || e.Liquidation?) && e.instrument == i then e.side.Sign() * e.qty else 0
  }

  lemma AppliedTotals(a: Account, e: AccountEvent)
    ensures var b := Applied(a, e);
            && b.cash == a.cash + CashFlow()(e) && |b.positions| == |a.positions|
            && b.tradingFees == a.tradingFees + TradingCost()(e) && b.fundingNet == a.fundingNet + FundingCost()(e)
            && forall i :: 0 <= i < |a.positions| ==> b.positions[i].net == a.positions[i].net + BoughtOn(i)(e)
  {
    hide Total, RealizedBy, AverageEntry;
  }

  /**
   * Nothing is counted twice or missed: after any events cash, fees and funding are the initial cash
   * and the sums of what each event moves, and every position is the sum of what was bought and sold.
   */
  lemma {:induction false} TotalsAreTallies(instruments: nat, cash: int, events: seq<AccountEvent>)
    ensures var a := AppliedAll(NewAccount(instruments, cash), events);
            && a.cash == cash + Tally(events, CashFlow()) && |a.positions| == instruments
            && a.tradingFees == Tally(events, TradingCost()) && a.fundingNet == Tally(events, FundingCost())
            && forall i :: 0 <= i < instruments ==> a.positions[i].net == Tally(events, BoughtOn(i))
  {
    if events != [] {
      var init, e := events[..|events| - 1], events[|events| - 1];
      assert events == init + [e];
      TotalsAreTallies(instruments, cash, init);
      AppliedTotals(AppliedAll(NewAccount(instruments, cash), init), e);
      TallyPush(init, e, CashFlow());
      TallyPush(init, e, TradingCost());
      TallyPush(init, e, FundingCost());
      hide Applied, CashFlow, TradingCost, FundingCost, BoughtOn;
      forall i: nat | i < instruments ensures AppliedAll(NewAccount(instruments, cash), events).positions[i].net == Tally(events, BoughtOn(i)) {
        TallyPush(init, e, BoughtOn(i));
      }
    }
  }

  // ---------------------------------------------------------------- the held index

  /** `held` lists exactly the instruments with an open position, each once. */
  ghost predicate HeldExact(a: Account) {
    && Distinct(a.held)
    && forall i: nat :: i in a.held <==> i < |a.positions| && a.positions[i].net != 0
  }

  lemma SettledKeepsHeld(a: Account, instrument: nat, side: Side, price: int, qty: int, costs: seq<int>)
    requires HeldExact(a)
    ensures HeldExact(Settled(a, instrument, side, price, qty, costs))
  {
    hide NextPosition;
    WithoutElements(a.held, instrument);
  }

  lemma {:induction false} HeldStaysExact(a: Account, events: seq<AccountEvent>)
    requires HeldExact(a)
    ensures HeldExact(AppliedAll(a, events))
    ensures |AppliedAll(a, events).positions| == |a.positions|
  {
    if events != [] {
      HeldStaysExact(a, events[..|events| - 1]);
      var b, e := AppliedAll(a, events[..|events| - 1]), events[|events| - 1];
      if e.Fill? || e.Liquidation? {
        SettledKeepsHeld(b, e.instrument, e.side, e.price, e.qty, e.costs);
      }
    }
  }

  // ---------------------------------------------------------------- equity

  type Marks = seq<Option<int>>

  /** Market value of the position in instrument i at its latest close; zero while it has none. */
  function ValueOf(a: Account, marks: Marks): nat -> int {
    (i: nat) => if i < |a.positions| && i < |marks| && marks[i].Some? then a.positions[i].net * marks[i].value else 0
  }

  function Equity(a: Account, marks: Marks): int {
    a.cash + SumTo(|a.positions|, ValueOf(a, marks))
  }

  /** Sums over the held instruments only, as the engine does at every bar close. */
  method MarkToMarket(a: Account, marks: Marks) returns (equity: int)
    requires HeldExact(a)
    ensures equity == Equity(a, marks)
  {
    equity := a.cash;
    for k := 0 to |a.held|
      invariant equity == a.cash + Tally(a.held[..k], ValueOf(a, marks))
    {
      var i := a.held[k];
      PrefixStep(a.held, k);
      TallyPush<nat>(a.held[..k], i, ValueOf(a, marks));
      var qty := if i < |a.positions| then a.positions[i].net else 0;
      if qty != 0 {
        if i < |marks| && marks[i].Some? {
          equity := equity + qty * marks[i].value;
        }
      }
    }
    assert a.held[..|a.held|] == a.held;
    TallyOverSupport(|a.positions|, a.held, ValueOf(a, marks));
  }

  /** Sums over every instrument of the catalogue, as a strategy's context does. */
  method ContextEquity(a: Account, marks: Marks) returns (equity: int)
    ensures equity == Equity(a, marks)
  {
    equity := a.cash;
    for i := 0 to |a.positions|
      invariant equity == a.cash + SumTo(i, ValueOf(a, marks))
    {
      var net := a.positions[i].net;
      if net != 0 && i < |marks| && marks[i].Some? {
        equity := equity + net * marks[i].value;
      }
    }
  }

  function BasisOf(a: Account): nat -> int {
    (i: nat) => if i < |a.positions| then a.positions[i].net * a.positions[i].avg else 0
  }

  function UnrealizedOf(a: Account, marks: Marks): nat -> int {
    (i: nat) =>
      if i < |a.positions| && i < |marks| && marks[i].Some? then
        a.positions[i].net * (marks[i].value - a.positions[i].avg)
      else 0
  }

  predicate Catalogued(e: AccountEvent, instruments: nat) {
    e.Fill? || e.Liquidation? ==> e.instrument < instruments
  }

  predicate Trades(a: Account, e: AccountEvent) {
    (e.Fill? || e.Liquidation?) && e.instrument < |a.positions|
  }

  function EventRounding(a: Account, e: AccountEvent): int {
    if Trades(a, e) then RoundingError(a.positions[e.instrument], e.side.Sign() * e.qty, e.price) else 0
  }

  /** The position size arrived at by a fill that increases a position. */
  function EventIncrease(a: Account, e: AccountEvent): nat {
    if Trades(a, e) && e.qty != 0 && Increases(a.positions[e.instrument], e.side.Sign() * e.qty) then
      Abs(a.positions[e.instrument].net + e.side.Sign() * e.qty)
    else 0
  }

  /** Total error the rounded averages have put into the cost bases over a run of events. */
  function TotalRounding(a: Account, events: seq<AccountEvent>): int {
    if events == [] then 0
    else TotalRounding(a, events[..|events| - 1]) + EventRounding(AppliedAll(a, events[..|events| - 1]), events[|events| - 1])
  }

  /** Sum of the position sizes that position-increasing fills arrive at. */
  function IncreasedSize(a: Account, events: seq<AccountEvent>): nat {
    if events == [] then 0
    else IncreasedSize(a, events[..|events| - 1]) + EventIncrease(AppliedAll(a, events[..|events| - 1]), events[|events| - 1])
  }

  ghost function NetWorth(a: Account): int {
    a.cash + SumTo(|a.positions|, BasisOf(a)) - a.realized + a.tradingFees + a.fundingNet
  }

  lemma SettledBasis(a: Account, instrument: nat, side: Side, price: int, qty: int, costs: seq<int>)
    requires instrument < |a.positions|
    ensures NetWorth(Settled(a, instrument, side, price, qty, costs))
            == NetWorth(a) + RoundingError(a.positions[instrument], side.Sign() * qty, price)
  {
    hide NextPosition, RealizedBy, RoundingError;
    var b := Settled(a, instrument, side, price, qty, costs);
    CostBasisStep(a.positions[instrument], side.Sign() * qty, price);
    SumToPointChange(|a.positions|, BasisOf(a), BasisOf(b), instrument);
  }

  lemma SameNetWorth(a: Account, b: Account)
    requires a.positions == b.positions
    requires a.cash - a.realized + a.tradingFees + a.fundingNet == b.cash - b.realized + b.tradingFees + b.fundingNet
    ensures NetWorth(a) == NetWorth(b)
  {
    SumToCongruent(|a.positions|, BasisOf(a), BasisOf(b));
  }

  /** One event changes cash plus basis, less profit and plus costs, by its rounding error alone. */
  lemma AppliedBasis(a: Account, e: AccountEvent)
    requires Catalogued(e, |a.positions|)
    ensures NetWorth(Applied(a, e)) == NetWorth(a) + EventRounding(a, e)
    ensures 2 * Abs(EventRounding(a, e)) <= EventIncrease(a, e)
  {
    hide Settled, NetWorth, RoundingError;
    if e.Fill? || e.Liquidation? {
      var s := Settled(a, e.instrument, e.side, e.price, e.qty, e.costs);
      SettledBasis(a, e.instrument, e.side, e.price, e.qty, e.costs);
      CostBasisStep(a.positions[e.instrument], e.side.Sign() * e.qty, e.price);
      SignedZero(e.side, e.qty);
      SameNetWorth(s, Applied(a, e));
    } else {
      SameNetWorth(a, Applied(a, e));
    }
  }

  lemma SignedZero(side: Side, qty: int)
    ensures side.Sign() * qty == 0 <==> qty == 0
  {
  }

  /** Cash plus cost basis is initial cash plus realized profit minus costs, up to the rounding error. */
  lemma {:induction false} CostBasisIdentity(instruments: nat, cash: int, events: seq<AccountEvent>)
    requires forall e :: e in events ==> Catalogued(e, instruments)
    ensures var start := NewAccount(instruments, cash);
            var a := AppliedAll(start, events);
            && |a.positions| == instruments
            && NetWorth(a) == cash + TotalRounding(start, events)
            && 2 * Abs(TotalRounding(start, events)) <= IncreasedSize(start, events)
  {
    hide Applied, EventRounding, EventIncrease;
    var start := NewAccount(instruments, cash);
    if events == [] {
      SumToZero(instruments, BasisOf(start));
    } else {
      var init, e := events[..|events| - 1], events[|events| - 1];
      assert events == init + [e];
      CostBasisIdentity(instruments, cash, init);
      HeldStaysExact(start, events);
      AppliedBasis(AppliedAll(start, init), e);
    }
  }

  /**
   * The equity identity: with every open position marked, equity is initial cash plus realized
   * plus unrealized profit minus fees and funding, plus a rounding error of at most half a unit
   * per unit of size over the position-increasing fills.
   */
  lemma EquityIdentity(instruments: nat, cash: int, events: seq<AccountEvent>, marks: Marks)
    requires forall e :: e in events ==> Catalogued(e, instruments)
    requires var a := AppliedAll(NewAccount(instruments, cash), events);
             forall i: nat :: i in a.held ==> i < |marks| && marks[i].Some?
    ensures var start := NewAccount(instruments, cash);
            var a := AppliedAll(start, events);
            && Equity(a, marks) == cash + a.realized + SumTo(instruments, UnrealizedOf(a, marks))
                                   - a.tradingFees - a.fundingNet + TotalRounding(start, events)
            && 2 * Abs(TotalRounding(start, events)) <= IncreasedSize(start, events)
  {
    var start := NewAccount(instruments, cash);
    CostBasisIdentity(instruments, cash, events);
    HeldStaysExact(start, events);
    MarkedValue(AppliedAll(start, events), marks);
    hide AppliedAll, TotalRounding, IncreasedSize, SumTo;
  }

  lemma MarkedValue(a: Account, marks: Marks)
    requires HeldExact(a) && forall i: nat :: i in a.held ==> i < |marks| && marks[i].Some?
    ensures SumTo(|a.positions|, ValueOf(a, marks)) == SumTo(|a.positions|, BasisOf(a)) + SumTo(|a.positions|, UnrealizedOf(a, marks))
  {
    forall i: nat | i < |a.positions| ensures ValueOf(a, marks)(i) == BasisOf(a)(i) + UnrealizedOf(a, marks)(i) {
      if a.positions[i].net != 0 {
        assert i in a.held;
        SplitValue(a.positions[i].net, marks[i].value, a.positions[i].avg);
      }
    }
    SumToAdd(|a.positions|, BasisOf(a), UnrealizedOf(a, marks), ValueOf(a, marks));
  }

  lemma SplitValue(net: int, mark: int, avg: int)
    ensures net * mark == net * avg + net * (mark - avg)
  {
  }

  ghost predicate PricedWithin(e: AccountEvent, lo: int, hi: int) {
    e.Fill? || e.Liquidation? ==> lo <= e.price <= hi
  }

  ghost predicate AveragedWithin(p: Position, lo: int, hi: int) {
    if p.net == 0 then p.avg == 0 else lo <= p.avg <= hi
  }

  /** No average entry price ever leaves the range of the prices traded, so it fits whatever they fit. */
  lemma {:induction false} AveragesStayWithinPrices(instruments: nat, cash: int, events: seq<AccountEvent>, lo: int, hi: int)
    requires forall e :: e in events ==> PricedWithin(e, lo, hi)
    ensures forall p :: p in AppliedAll(NewAccount(instruments, cash), events).positions ==> AveragedWithin(p, lo, hi)
  {
    if events != [] {
      var init, e := events[..|events| - 1], events[|events| - 1];
      assert events == init + [e];
      AveragesStayWithinPrices(instruments, cash, init, lo, hi);
      var b := AppliedAll(NewAccount(instruments, cash), init);
      if Trades(b, e) {
        assert PricedWithin(e, lo, hi);
        assert b.positions[e.instrument] in b.positions;
        AverageStaysWithin(b.positions[e.instrument], e.side.Sign() * e.qty, e.price, lo, hi);
      }
    }
  }

  lemma AverageStaysWithin(p: Position, signed: int, price: int, lo: int, hi: int)
    requires AveragedWithin(p, lo, hi) && lo <= price <= hi
    ensures AveragedWithin(NextPosition(p, signed, price), lo, hi)
  {
    if signed != 0 && Increases(p, signed) {
      AverageEntryBetween(Abs(p.net), p.avg, Abs(signed), price);
      hide AverageEntry;
    }
  }

  // ---------------------------------------------------------------- the portfolio in place

  class Book {
    var cash: int
    var realized: int
    var tradingFees: int
    var fundingNet: int
    var liquidationPnl: int
    var positions: seq<Position>
    var held: seq<nat>
    var fills: seq<FillRecord>
    var open: seq<nat>
    var lastFunding: seq<Option<int>>

    function State(): Account
      reads this
    {
      Account(cash, realized, tradingFees, fundingNet, liquidationPnl, positions, held, fills, open, lastFunding)
    }

    constructor (instruments: nat, initialCash: int)
      ensures State() == NewAccount(instruments, initialCash)
    {
      cash := initialCash;
      realized, tradingFees, fundingNet, liquidationPnl := 0, 0, 0, 0;
      positions := seq(instruments, _ => FLAT);
      held, fills, open := [], [], [];
      lastFunding := seq(instruments, _ => None);
    }

    method Settle(instrument: nat, side: Side, price: int, qty: int, costs: seq<int>) returns (fee: int)
      modifies this
      ensures State() == Settled(old(State()), instrument, side, price, qty, costs)
      ensures fee == Total(costs)
    {
      hide NextPosition, RealizedBy;
      fee := Total(costs);
      var signed := side.Sign() * qty;
      if instrument < |positions| {
        var position := positions[instrument];
        var wasOpen := position.net != 0;
        positions := positions[instrument := NextPosition(position, signed, price)];
        var nowOpen := positions[instrument].net != 0;
        realized := realized + RealizedBy(position, signed, price);
        if wasOpen != nowOpen {
          if nowOpen {
            held := held + [instrument];
          } else {
            held := Without(held, instrument);
          }
        }
      }
      cash := cash - side.Sign() * qty * price - fee;
      tradingFees := tradingFees + fee;
    }

    method Apply(e: AccountEvent)
      modifies this
      ensures State() == Applied(old(State()), e)
    {
      hide Settled;
      match e {
        case Fill(id, instrument, side, price, qty, costs, complete, ts) =>
          SettledLeavesLists(State(), instrument, side, price, qty, costs);
          var fee := Settle(instrument, side, price, qty, costs);
          fills := fills + [FillRecord(id, instrument, side, price, qty, fee, ts)];
          if complete {
            open := Without(open, id);
          }
        case OrderAccepted(id, _) =>
          open := open + [id];
        case OrderCanceled(id, _, _) =>
          open := Without(open, id);
        case OrderRejected(id, _, _) =>
          open := Without(open, id);
        case OrderExpired(id, _) =>
          open := Without(open, id);
        case Liquidation(instrument, side, price, qty, costs, _) =>
          SettledLeavesLists(State(), instrument, side, price, qty, costs);
          var before := realized;
          var _ := Settle(instrument, side, price, qty, costs);
          liquidationPnl := liquidationPnl + (realized - before);
        case FundingSettlement(instrument, cost, rate, _) =>
          cash := cash - cost;
          fundingNet := fundingNet + cost;
          if instrument < |lastFunding| {
            lastFunding := lastFunding[instrument := Some(rate)];
          }
        case OrderTriggered(_, _) =>
        case OrderCancelRejected(_, _) =>
        case Resync(_, _) =>
      }
    }
  }

  lemma SettledLeavesLists(a: Account, instrument: nat, side: Side, price: int, qty: int, costs: seq<int>)
    ensures var b := Settled(a, instrument, side, price, qty, costs);
            b.open == a.open && b.fills == a.fills && b.lastFunding == a.lastFunding
            && b.liquidationPnl == a.liquidationPnl && b.fundingNet == a.fundingNet
  {
  }
}
