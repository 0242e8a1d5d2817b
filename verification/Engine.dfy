/**
 * The event loop shared by backtest and live, driven by an arbitrary strategy: observe, drain,
 * append to the market, fire due timers, decide, route, drain, sample equity.
 */
module Engine {
  import opened Prelude
  import opened Sorting
  import opened Trading
  import opened Exchange
  import opened Portfolio

  /** More account events than this in one drain is a runaway feedback loop: the run is aborted. */
  const MAX_DRAIN_EVENTS: nat := 1_000_000

  datatype Event =
    | BarEvent(bar: Bar)
    | ResyncEvent(scope: Option<nat>, at: int)
    | SignalEvent(instrument: nat, channel: nat, value: int, at: int)
  {
    function Ts(): int {
      if BarEvent? then bar.ts else at
    }
  }

  datatype Action = SubmitOrder(order: Order) | CancelOrder(id: nat) | Schedule(at: int)

  datatype GateAction = Place(id: nat, order: Order) | Revoke(id: nat)

  datatype Gate = Gate(nextId: nat, pending: seq<GateAction>, timers: seq<int>)

  datatype MarketData = MarketData(bars: seq<seq<Bar>>, signals: map<(nat, nat), seq<int>>)

  datatype Callback = OnStart | OnBar(bar: Bar) | OnTimer(at: int) | OnSpecific(e: AccountEvent) | OnAccount(e: AccountEvent) | OnStop

  /** Everything a strategy may read during a callback. */
  datatype View = View(market: MarketData, account: Account, gate: Gate, now: int)

  /** Any strategy: a state of any type and any reaction to a callback. */
  datatype Strategy<!S> = Strategy(start: S, react: (S, Callback, View) -> (S, seq<Action>))

  /** The engine's state; `ops` and `log` record what was asked of the venue and what it emitted. */
  datatype Sys<S> = Sys(
    venue: Venue,
    account: Account,
    gate: Gate,
    market: MarketData,
    mind: S,
    sink: seq<AccountEvent>,
    curve: seq<(int, int)>,
    bars: nat,
    ops: seq<Op>,
    log: seq<AccountEvent>)

  // ---------------------------------------------------------------- market and gate

  function MarksOf(market: MarketData): seq<Option<int>> {
    seq(|market.bars|, i requires 0 <= i < |market.bars| =>
      if market.bars[i] == [] then None else Some(market.bars[i][|market.bars[i]| - 1].close))
  }

  function Pushed(market: MarketData, bar: Bar): MarketData {
    if bar.instrument < |market.bars| then
      market.(bars := market.bars[bar.instrument := market.bars[bar.instrument] + [bar]])
    else
      market
  }

  function Signaled(market: MarketData, instrument: nat, channel: nat, value: int): MarketData {
    var key := (instrument, channel);
    market.(signals := market.signals[key := (if key in market.signals then market.signals[key] else []) + [value]])
  }

  function Buffered(gate: Gate, action: Action): Gate {
    match action
    case SubmitOrder(order) => gate.(nextId := gate.nextId + 1, pending := gate.pending + [Place(gate.nextId, order)])
    case CancelOrder(id) => gate.(pending := gate.pending + [Revoke(id)])
    case Schedule(at) => gate.(timers := gate.timers + [at])
  }

  function BufferedAll(gate: Gate, actions: seq<Action>): Gate {
    if actions == [] then gate else Buffered(BufferedAll(gate, actions[..|actions| - 1]), actions[|actions| - 1])
  }

  predicate SoonerTimer(a: int, b: int) { a < b }

  /** The timers due by `now`, in time order, and those that stay. */
  function Due(timers: seq<int>, now: int): seq<int> {
    if timers == [] then []
    else if timers[0] <= now then Insert(timers[0], Due(timers[1..], now), SoonerTimer)
    else Due(timers[1..], now)
  }

  function NotDue(timers: seq<int>, now: int): seq<int> {
    if timers == [] then []
    else if timers[0] > now then [timers[0]] + NotDue(timers[1..], now)
    else NotDue(timers[1..], now)
  }

  // ---------------------------------------------------------------- callbacks, routing, draining

  function Called<S>(strategy: Strategy<S>, sys: Sys<S>, callback: Callback, now: int): Sys<S> {
    var (mind, actions) := strategy.react(sys.mind, callback, View(sys.market, sys.account, sys.gate, now));
    sys.(mind := mind, gate := BufferedAll(sys.gate, actions))
  }

  function AsOp(action: GateAction, now: int): Op {
    match action
    case Place(id, order) => Submit(id, order, now)
    case Revoke(id) => Cancel(id, now)
  }

  function Executed<S>(cfg: Config, sys: Sys<S>, op: Op): Sys<S> {
    var (venue, events) := Exec(cfg, sys.venue, op);
    sys.(venue := venue, sink := sys.sink + events, ops := sys.ops + [op], log := sys.log + events)
  }

  function RoutedAll<S>(cfg: Config, sys: Sys<S>, actions: seq<GateAction>, now: int): Sys<S> {
    if actions == [] then
      sys
    else
      Executed(cfg, RoutedAll(cfg, sys, actions[..|actions| - 1], now), AsOp(actions[|actions| - 1], now))
  }

  /** Route every buffered action to the venue, in submission order. */
  function Routed<S>(cfg: Config, sys: Sys<S>, now: int): Sys<S> {
    RoutedAll(cfg, sys.(gate := sys.gate.(pending := [])), sys.gate.pending, now)
  }

  predicate HasSpecificCallback(e: AccountEvent) {
    e.Fill? || e.OrderRejected? || e.OrderCanceled? || e.Liquidation? || e.FundingSettlement?
  }

  /** One account event: apply it, tell the strategy, route what it asks for. */
  function Handled<S>(cfg: Config, strategy: Strategy<S>, sys: Sys<S>, e: AccountEvent, now: int): Sys<S> {
    var applied := sys.(account := Applied(sys.account, e));
    var told := if HasSpecificCallback(e) then Called(strategy, applied, OnSpecific(e), now) else applied;
    Routed(cfg, Called(strategy, told, OnAccount(e), now), now)
  }

  /** Process the sink from position i to its end, which routed orders keep moving; None is the abort. */
  function DrainedFrom<S>(cfg: Config, strategy: Strategy<S>, sys: Sys<S>, i: nat, now: int): Option<Sys<S>>
    decreases MAX_DRAIN_EVENTS - i
  {
    if i >= |sys.sink| then
      Some(sys.(sink := []))
    else if i >= MAX_DRAIN_EVENTS then
      None
    else
      DrainedFrom(cfg, strategy, Handled(cfg, strategy, sys, sys.sink[i], now), i + 1, now)
  }

  function Drained<S>(cfg: Config, strategy: Strategy<S>, sys: Sys<S>, now: int): Option<Sys<S>> {
    DrainedFrom(cfg, strategy, sys, 0, now)
  }

  function FiredAll<S>(strategy: Strategy<S>, sys: Sys<S>, due: seq<int>, now: int): Sys<S> {
    if due == [] then
      sys
    else
      Called(strategy, FiredAll(strategy, sys, due[..|due| - 1], now), OnTimer(due[|due| - 1]), now)
  }

  function TimersFired<S>(strategy: Strategy<S>, sys: Sys<S>, now: int): Sys<S> {
    var gate := sys.gate.(timers := NotDue(sys.gate.timers, now));
    FiredAll(strategy, sys.(gate := gate), Due(sys.gate.timers, now), now)
  }

  // ---------------------------------------------------------------- the loop

  function Fresh<S>(cfg: Config, strategy: Strategy<S>, cash: int, mirrored: Option<int>): Sys<S> {
    Sys(Opened(mirrored), NewAccount(|cfg.specs|, cash), Gate(0, [], []),
        MarketData(seq(|cfg.specs|, _ => []), map[]), strategy.start, [], [], 0, [], [])
  }

  function RouteAndDrain<S>(cfg: Config, strategy: Strategy<S>, sys: Sys<S>, now: int): Option<Sys<S>> {
    Drained(cfg, strategy, Routed(cfg, sys, now), now)
  }

  function Started<S>(cfg: Config, strategy: Strategy<S>, cash: int, mirrored: Option<int>): Option<Sys<S>> {
    RouteAndDrain(cfg, strategy, Called(strategy, Fresh(cfg, strategy, cash, mirrored), OnStart, 0), 0)
  }

  function Sampled<S>(sys: Sys<S>, now: int): Sys<S> {
    sys.(curve := sys.curve + [(now, Equity(sys.account, MarksOf(sys.market)))])
  }

  /** A bar after its fills have been drained: append, fire timers, decide, route, drain, sample. */
  function Decided<S>(cfg: Config, strategy: Strategy<S>, sys: Sys<S>, bar: Bar): Option<Sys<S>> {
    var timed := TimersFired(strategy, sys.(market := Pushed(sys.market, bar)), bar.ts);
    var called := Called(strategy, timed, OnBar(bar), bar.ts);
    match RouteAndDrain(cfg, strategy, called.(bars := called.bars + 1), bar.ts)
    case None => None
    case Some(done) => Some(Sampled(done, bar.ts))
  }

  function Stepped<S>(cfg: Config, strategy: Strategy<S>, sys: Sys<S>, event: Event): Option<Sys<S>> {
    var now := event.Ts();
    match event
    case BarEvent(bar) =>
      (match Drained(cfg, strategy, Executed(cfg, sys, Observe(bar, now)), now)
       case None => None
       case Some(filled) => Decided(cfg, strategy, filled, bar))
    case ResyncEvent(scope, at) =>
      (match Drained(cfg, strategy, sys, now)
       case None => None
       case Some(quiet) => Drained(cfg, strategy, TimersFired(strategy, quiet.(sink := quiet.sink + [Resync(scope, at)]), now), now))
    case SignalEvent(instrument, channel, value, _) =>
      (match Drained(cfg, strategy, sys, now)
       case None => None
       case Some(quiet) =>
         RouteAndDrain(cfg, strategy, TimersFired(strategy, quiet.(market := Signaled(quiet.market, instrument, channel, value)), now), now))
  }

  /** The run up to, and not including, the stop callback. */
  function Ran<S>(cfg: Config, strategy: Strategy<S>, cash: int, mirrored: Option<int>, events: seq<Event>): Option<Sys<S>> {
    if events == [] then
      Started(cfg, strategy, cash, mirrored)
    else
      match Ran(cfg, strategy, cash, mirrored, events[..|events| - 1])
      case None => None
      case Some(sys) => Stepped(cfg, strategy, sys, events[|events| - 1])
  }

  function Stopped<S>(cfg: Config, strategy: Strategy<S>, sys: Sys<S>, now: int): Option<Sys<S>> {
    RouteAndDrain(cfg, strategy, Called(strategy, TimersFired(strategy, sys, now), OnStop, now), now)
  }

  function Finished<S>(cfg: Config, strategy: Strategy<S>, cash: int, mirrored: Option<int>, events: seq<Event>): Option<Sys<S>> {
    match Ran(cfg, strategy, cash, mirrored, events)
    case None => None
    case Some(sys) => Stopped(cfg, strategy, sys, if events == [] then 0 else events[|events| - 1].Ts())
  }
}
