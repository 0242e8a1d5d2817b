/**
 * The simulated venue as a state machine on values: what each of its three entry points,
 * submit, cancel and observe, does to the resting orders, the shadow positions and the
 * mirrored cash, and which account events it emits. SimulatedExchange implements it in place.
 */
module Exchange {
  import opened Prelude
  import opened Trading
  import opened AverageCost

  datatype Spec = Spec(perpetual: bool, minNotional: int)

  datatype Config = Config(
    specs: seq<Spec>,
    feeBps: int,
    slippageBps: int,
    impactBps: int,
    latencyBars: nat,
    participationBps: Option<int>,
    fundingBps: int,
    fundingInterval: nat,
    liquidationBps: Option<int>,
    makerFillBps: Option<int>,
    draws: nat -> nat,
    schedules: map<nat, seq<(int, int)>>,
    intervals: map<nat, nat>)

  datatype Resting = Resting(id: nat, order: Order, activateIn: nat, armed: bool, trailRef: Option<int>, filled: int)

  datatype Shadow = Shadow(net: int, avg: int, bars: nat, mark: int) {
    function Held(): Position {
      Position(net, avg)
    }
  }

  const NO_SHADOW := Shadow(0, 0, 0, 0)

  datatype Venue = Venue(resting: seq<Resting>, shadows: map<nat, Shadow>, cash: Option<int>, drawn: nat)

  function ShadowOf(shadows: map<nat, Shadow>, instrument: nat): Shadow {
    if instrument in shadows then shadows[instrument] else NO_SHADOW
  }

  // ---------------------------------------------------------------- prices and costs

  function ApplyShadow(s: Shadow, side: Side, price: int, qty: int): Shadow {
    var signed := side.Sign() * qty;
    if s.net == 0 || (s.net > 0) == (signed > 0) then
      s.(net := s.net + signed,
         avg := if Abs(s.net) + Abs(signed) != 0 then AverageEntry(Abs(s.net), s.avg, Abs(signed), price) else s.avg)
    else
      var net := s.net + signed;
      s.(net := net, avg := if net == 0 then 0 else if (net > 0) != (s.net > 0) then price else s.avg)
  }

  function Slipped(cfg: Config, base: int, side: Side): int {
    if cfg.slippageBps == 0 then base else base + side.Sign() * TruncDiv(base * cfg.slippageBps, 10_000)
  }

  /** Price of a liquidity-taking fill: flat slippage plus volume-share impact, both adverse. */
  function FillPrice(cfg: Config, base: int, side: Side, qty: int, volume: int): int {
    var slipped := Slipped(cfg, base, side);
    if cfg.impactBps == 0 || volume <= 0 || qty <= 0 then
      slipped
    else
      var share := Min((qty * 10_000) / volume, 10_000);
      slipped + side.Sign() * TruncDiv(TruncDiv(slipped * cfg.impactBps, 10_000) * share, 10_000)
  }

  function FeeCosts(cfg: Config, instrument: nat, price: int, qty: int): seq<int> {
    if cfg.feeBps != 0 && instrument < |cfg.specs| then [MulBps(price * qty, cfg.feeBps)] else []
  }

  function SettledCash(cash: Option<int>, side: Side, price: int, qty: int, costs: seq<int>): Option<int> {
    match cash
    case None => None
    case Some(c) => Some(c - side.Sign() * (price * qty) - Total(costs))
  }

  function CostAt(cfg: Config, price: int, qty: int): int {
    price * qty + MulBps(price * qty, cfg.feeBps)
  }

  /** Cash a buy of `qty` is expected to consume; nothing for sells and for buys with no mark. */
  function BuyCost(cfg: Config, shadows: map<nat, Shadow>, order: Order, qty: int): Option<int> {
    if order.side != Buy then
      None
    else if order.kind.Passive() then
      Some(CostAt(cfg, order.kind.limit, qty))
    else
      var mark := ShadowOf(shadows, order.instrument).mark;
      if mark <= 0 then
        None
      else
        var slipped := Slipped(cfg, mark, Buy);
        Some(CostAt(cfg, slipped + TruncDiv(slipped * Max(cfg.impactBps, 0), 10_000), qty))
  }

  /** Cash reserved for the unfilled remainders of all resting buys. */
  function Reserved(cfg: Config, shadows: map<nat, Shadow>, resting: seq<Resting>): int {
    Tally(resting, ReserveOf(cfg, shadows))
  }

  function ReserveOf(cfg: Config, shadows: map<nat, Shadow>): Resting -> int {
    (r: Resting) => BuyCost(cfg, shadows, r.order, r.order.qty - r.filled).GetOr(0)
  }

  // ---------------------------------------------------------------- submit and cancel

  function Rejection(cfg: Config, v: Venue, order: Order): Option<RejectReason> {
    if order.instrument >= |cfg.specs| then
      Some(InvalidOrder)
    else if order.qty <= 0 then
      Some(InvalidOrder)
    else if order.postOnly && !order.kind.Passive() then
      Some(InvalidOrder)
    else if order.kind.Passive() && Abs(order.kind.limit * order.qty) < Max(cfg.specs[order.instrument].minNotional, 0) then
      Some(InvalidOrder)
    else
      var net := ShadowOf(v.shadows, order.instrument).net;
      if order.reduceOnly && (net == 0 || (net > 0) == (order.side == Buy)) then
        Some(WouldIncreasePosition)
      else
        var required := BuyCost(cfg, v.shadows, order, order.qty);
        if v.cash.Some? && required.Some?
           && v.cash.value - Reserved(cfg, v.shadows, v.resting) < required.value then
          Some(InsufficientFunds)
        else
          None
  }

  function Submitted(cfg: Config, v: Venue, id: nat, order: Order, now: int): (Venue, seq<AccountEvent>) {
    match Rejection(cfg, v, order)
    case Some(reason) => (v, [OrderRejected(id, reason, now)])
    case None =>
      (v.(resting := v.resting + [Resting(id, order, cfg.latencyBars, false, None, 0)]), [OrderAccepted(id, now)])
  }

  function IndexOf(resting: seq<Resting>, id: nat): (i: nat)
    ensures i <= |resting|
    ensures i < |resting| ==> resting[i].id == id
    ensures forall j :: 0 <= j < i ==> resting[j].id != id
  {
    if resting == [] || resting[0].id == id then 0 else 1 + IndexOf(resting[1..], id)
  }

  function Canceled(v: Venue, id: nat, now: int): (Venue, seq<AccountEvent>) {
    var i := IndexOf(v.resting, id);
    if i < |v.resting| then
      (v.(resting := v.resting[..i] + v.resting[i + 1..]), [OrderCanceled(id, Requested, now)])
    else
      (v, [OrderCancelRejected(id, now)])
  }

  // ---------------------------------------------------------------- one order against one bar

  datatype Outcome = FillAt(price: int) | CancelFor(reason: CancelReason) | Rest

  predicate Marketable(side: Side, limit: int, open: int) {
    if side.Buy? then limit >= open else limit <= open
  }

  function LimitFill(side: Side, limit: int, bar: Bar, refOpen: int): Outcome {
    if side.Buy? && bar.low <= limit then FillAt(Min(refOpen, limit))
    else if side.Sell? && bar.high >= limit then FillAt(Max(refOpen, limit))
    else Rest
  }

  function StopFill(side: Side, trigger: int, open: int): int {
    if side.Buy? then Max(trigger, open) else Min(trigger, open)
  }

  predicate StopTriggered(side: Side, trigger: int, bar: Bar) {
    if side.Buy? then bar.high >= trigger else bar.low <= trigger
  }

  function TrailOffset(trail: TrailKind, ref: int): int {
    match trail
    case Absolute(offset) => offset
    case Percent(bps) => TruncDiv(ref * bps, 10_000)
  }

  /** Whether the order acts on this bar, and its arming and trailing state afterwards. */
  function Evaluate(r: Resting, bar: Bar): (Resting, Outcome) {
    var side := r.order.side;
    match r.order.kind
    case Market => (r, FillAt(bar.open))
    case Limit(limit) =>
      (r, if r.order.postOnly && Marketable(side, limit, bar.open) then CancelFor(VenueCanceled)
          else LimitFill(side, limit, bar, bar.open))
    case Stop(trigger) =>
      (r, if StopTriggered(side, trigger, bar) then FillAt(StopFill(side, trigger, bar.open)) else Rest)
    case StopLimit(trigger, limit) =>
      var justArmed := !r.armed && StopTriggered(side, trigger, bar);
      if !r.armed && !justArmed then
        (r, Rest)
      else
        var refOpen := if justArmed then trigger else bar.open;
        (r.(armed := true),
         if r.order.postOnly && Marketable(side, limit, refOpen) then CancelFor(VenueCanceled)
         else LimitFill(side, limit, bar, refOpen))
    case MarketIfTouched(trigger) =>
      (r, if (if side.Buy? then bar.low <= trigger else bar.high >= trigger) then FillAt(trigger) else Rest)
    case TrailingStop(trail) =>
      if side.Sell? then
        var ref := Max(r.trailRef.GetOr(bar.high), bar.high);
        var trigger := ref - TrailOffset(trail, ref);
        (r.(trailRef := Some(ref)), if bar.low <= trigger then FillAt(trigger) else Rest)
      else
        var ref := Min(r.trailRef.GetOr(bar.low), bar.low);
        var trigger := ref + TrailOffset(trail, ref);
        (r.(trailRef := Some(ref)), if bar.high >= trigger then FillAt(trigger) else Rest)
  }

  /** Evaluating an order changes nothing but its arming and trailing state; only a stop-limit arms here. */
  lemma EvaluateKeeps(r: Resting, bar: Bar)
    ensures var (e, outcome) := Evaluate(r, bar);
            && e.id == r.id && e.order == r.order && e.filled == r.filled
            && (r.armed ==> e.armed) && (e.armed && !r.armed ==> r.order.kind.StopLimit?)
            && (r.order.kind.StopLimit? && outcome.FillAt? ==> e.armed)
  {
  }

  /** The bar only touched the limit, so with the maker model on the fill is a draw. */
  predicate TouchIsUncertain(cfg: Config, order: Order, bar: Bar) {
    cfg.makerFillBps.Some? && order.kind.Passive()
    && (if order.side.Buy? then bar.low == order.kind.limit else bar.high == order.kind.limit)
  }

  predicate DrawFills(cfg: Config, drawn: nat) {
    cfg.makerFillBps.Some? ==> cfg.draws(drawn) % 10_000 < cfg.makerFillBps.value
  }

  datatype Staged = Staged(id: nat, instrument: nat, side: Side, price: int, qty: int, complete: bool)

  /** An order-cancels-order group that took liquidity this bar, with the leg that did. */
  datatype Claim = Claim(group: nat, keeper: nat, filled: int, complete: bool)

  /** Running state of the pass over the resting orders. */
  datatype Scan = Scan(
    kept: seq<Resting>,
    events: seq<AccountEvent>,
    staged: seq<Staged>,
    claims: seq<Claim>,
    net: int,
    cap: Option<int>,
    drawn: nat)

  /**
   * What the pass does with one order: whether it triggers, what is left resting, the event that
   * ends it, and the fill staged for after the pass.
   */
  datatype Decision = Decision(
    triggered: bool,
    kept: Option<Resting>,
    ended: Option<AccountEvent>,
    staged: Option<Staged>,
    filled: int,
    drew: bool)
  {
    function Events(id: nat, now: int): seq<AccountEvent> {
      (if triggered then [OrderTriggered(id, now)] else []) + Listed(ended)
    }
  }

  predicate ClaimedByOther(claims: seq<Claim>, order: Order, id: nat) {
    order.group.Some? && exists c :: c in claims && c.group == order.group.value && c.keeper != id
  }

  predicate GroupClaimed(claims: seq<Claim>, group: nat) {
    exists c :: c in claims && c.group == group
  }

  function Untouched(r: Resting): Decision {
    Decision(false, Some(r), None, None, r.filled, false)
  }

  function End(r: Resting, e: AccountEvent, triggered: bool, drew: bool): Decision {
    Decision(triggered, None, Some(e), None, r.filled, drew)
  }

  function RestOrExpire(r: Resting, rests: bool, triggered: bool, drew: bool, now: int): Decision {
    if rests then
      Decision(triggered, Some(r), None, None, r.filled, drew)
    else
      End(r, OrderExpired(r.id, now), triggered, drew)
  }

  function Reducible(net: int, side: Side): int {
    if net != 0 && (net > 0) != (side == Buy) then Abs(net) else 0
  }

  /** Size and settle the fill of an order that is allowed to take liquidity at `base`. */
  function DecideFill(cfg: Config, bar: Bar, now: int, s: Scan, r: Resting, base: int, triggered: bool, drew: bool): Decision {
    var order := r.order;
    var remaining := order.qty - r.filled;
    var room := if s.cap.Some? then Min(remaining, Max(s.cap.value, 0)) else remaining;
    var reducible := Reducible(s.net, order.side);
    var exhausted := order.reduceOnly && room >= reducible;
    var want := if exhausted then reducible else room;
    if order.tif == Fok && want < remaining then
      End(r, OrderExpired(r.id, now), triggered, drew)
    else if want <= 0 then
      if exhausted then
        End(r, OrderCanceled(r.id, VenueCanceled, now), triggered, drew)
      else
        RestOrExpire(r, order.tif == Gtc, triggered, drew, now)
    else
      var price := if order.kind.Passive() then base else FillPrice(cfg, base, order.side, want, bar.volume);
      var filled := r.filled + want;
      var complete := filled >= order.qty || exhausted;
      var staged := Some(Staged(r.id, order.instrument, order.side, price, want, complete));
      if complete then
        Decision(triggered, None, None, staged, filled, drew)
      else if order.tif == Gtc then
        Decision(triggered, Some(r.(filled := filled)), None, staged, filled, drew)
      else
        Decision(triggered, None, Some(OrderExpired(r.id, now)), staged, filled, drew)
  }

  /** A stop, market-if-touched or trailing stop triggers on its first fill. */
  function Fire(e: Resting): Resting {
    if !e.armed && (e.order.kind.Stop? || e.order.kind.MarketIfTouched? || e.order.kind.TrailingStop?) then
      e.(armed := true)
    else
      e
  }

  function Decide(cfg: Config, bar: Bar, now: int, s: Scan, r: Resting): Decision {
    if r.order.instrument != bar.instrument then
      Untouched(r)
    else if r.activateIn > 0 then
      Untouched(r.(activateIn := r.activateIn - 1))
    else
      var (e, outcome) := Evaluate(r, bar);
      var armed := !r.armed && e.armed;
      match outcome
      case CancelFor(reason) =>
        End(e, OrderCanceled(r.id, reason, now), armed, false)
      case Rest =>
        RestOrExpire(e, r.order.tif == Gtc || (!e.armed && r.order.kind.Conditional()), armed, false, now)
      case FillAt(base) =>
        var drew := TouchIsUncertain(cfg, r.order, bar);
        if drew && !DrawFills(cfg, s.drawn) then
          RestOrExpire(e, r.order.tif == Gtc, armed, drew, now)
        else if ClaimedByOther(s.claims, r.order, r.id) then
          End(e, OrderCanceled(r.id, OcoTriggered, now), armed, drew)
        else
          var fired := Fire(e);
          DecideFill(cfg, bar, now, s, fired, base, !r.armed && fired.armed, drew)
  }

  /** A group is claimed by its first fill of the bar, partial or complete. */
  function NextClaims(claims: seq<Claim>, group: Option<nat>, id: nat, d: Decision): seq<Claim> {
    if d.staged.Some? && group.Some? && !GroupClaimed(claims, group.value) then
      claims + [Claim(group.value, id, d.filled, d.staged.value.complete)]
    else
      claims
  }

  function NextNet(net: int, side: Side, d: Decision): int {
    if d.staged.Some? then net + side.Sign() * d.staged.value.qty else net
  }

  function NextCap(cap: Option<int>, d: Decision): Option<int> {
    if d.staged.Some? && cap.Some? then Some(cap.value - d.staged.value.qty) else cap
  }

  function Advance(s: Scan, r: Resting, d: Decision, now: int): Scan {
    Scan(
      s.kept + Listed(d.kept),
      s.events + d.Events(r.id, now),
      s.staged + Listed(d.staged),
      NextClaims(s.claims, r.order.group, r.id, d),
      NextNet(s.net, r.order.side, d),
      NextCap(s.cap, d),
      if d.drew then s.drawn + 1 else s.drawn)
  }

  /** The pass over the pending orders, in their resting order. */
  function ScanOrders(cfg: Config, bar: Bar, now: int, pending: seq<Resting>, start: Scan): Scan {
    if pending == [] then
      start
    else
      var s := ScanOrders(cfg, bar, now, pending[..|pending| - 1], start);
      var r := pending[|pending| - 1];
      Advance(s, r, Decide(cfg, bar, now, s, r), now)
  }

  // ---------------------------------------------------------------- after the pass

  function FillEvent(cfg: Config, f: Staged, now: int): AccountEvent {
    Fill(f.id, f.instrument, f.side, f.price, f.qty, FeeCosts(cfg, f.instrument, f.price, f.qty), f.complete, now)
  }

  function SettleOne(cfg: Config, v: Venue, f: Staged): Venue {
    v.(shadows := v.shadows[f.instrument := ApplyShadow(ShadowOf(v.shadows, f.instrument), f.side, f.price, f.qty)],
       cash := SettledCash(v.cash, f.side, f.price, f.qty, FeeCosts(cfg, f.instrument, f.price, f.qty)))
  }

  function SettleFills(cfg: Config, v: Venue, staged: seq<Staged>, now: int): (Venue, seq<AccountEvent>) {
    if staged == [] then
      (v, [])
    else
      var f := staged[|staged| - 1];
      var (w, events) := SettleFills(cfg, v, staged[..|staged| - 1], now);
      (SettleOne(cfg, w, f), events + [FillEvent(cfg, f, now)])
  }

  /** What a claim does to one resting leg: cancel a sibling with nothing left to protect, else shrink it. */
  function ResolveLeg(r: Resting, c: Claim): Option<Resting> {
    if r.order.group != Some(c.group) || r.id == c.keeper then
      Some(r)
    else if c.complete || r.order.qty - c.filled <= 0 then
      None
    else
      Some(r.(filled := Max(r.filled, c.filled)))
  }

  function ResolveClaim(resting: seq<Resting>, c: Claim, now: int): (seq<Resting>, seq<AccountEvent>) {
    if resting == [] then
      ([], [])
    else
      var r := resting[|resting| - 1];
      var (kept, events) := ResolveClaim(resting[..|resting| - 1], c, now);
      match ResolveLeg(r, c)
      case Some(leg) => (kept + [leg], events)
      case None => (kept, events + [OrderCanceled(r.id, OcoTriggered, now)])
  }

  function ResolveClaims(resting: seq<Resting>, claims: seq<Claim>, now: int): (seq<Resting>, seq<AccountEvent>) {
    if claims == [] then
      (resting, [])
    else
      var (before, events) := ResolveClaims(resting, claims[..|claims| - 1], now);
      var (after, more) := ResolveClaim(before, claims[|claims| - 1], now);
      (after, events + more)
  }

  /** The rate of the latest schedule point at or before `now`, zero before the first. */
  function FundingRateAt(schedule: seq<(int, int)>, now: int): (rate: int) {
    if schedule == [] then 0
    else if schedule[|schedule| - 1].0 <= now then schedule[|schedule| - 1].1
    else FundingRateAt(schedule[..|schedule| - 1], now)
  }

  function AccrueFunding(cfg: Config, v: Venue, bar: Bar, now: int): (Venue, seq<AccountEvent>) {
    var i := bar.instrument;
    var interval := if i in cfg.intervals then cfg.intervals[i] else cfg.fundingInterval;
    if interval == 0 || i >= |cfg.specs| || !cfg.specs[i].perpetual then
      (v, [])
    else
      var shadow := ShadowOf(v.shadows, i);
      if shadow.bars + 1 < interval then
        (v.(shadows := v.shadows[i := shadow.(bars := shadow.bars + 1)]), [])
      else
        var w := v.(shadows := v.shadows[i := shadow.(bars := 0)]);
        if shadow.net == 0 then
          (w, [])
        else
          var rate := if i in cfg.schedules then FundingRateAt(cfg.schedules[i], now) else cfg.fundingBps * 10_000;
          var amount := MulRate(bar.close * shadow.net, rate);
          (w.(cash := SettledCash(w.cash, Buy, 0, 0, [amount])), [FundingSettlement(i, amount, rate, now)])
  }

  predicate MustLiquidate(cfg: Config, shadow: Shadow, mark: int) {
    && cfg.liquidationBps.Some? && shadow.net != 0 && shadow.avg != 0
    && var adverse := if shadow.net > 0 then shadow.avg - mark else mark - shadow.avg;
       Max(adverse, 0) * 10_000 / Max(Abs(shadow.avg), 1) >= cfg.liquidationBps.value
  }

  /** Resting orders on the liquidated instrument are canceled, in order. */
  function DropInstrument(resting: seq<Resting>, instrument: nat, now: int): (seq<Resting>, seq<AccountEvent>) {
    if resting == [] then
      ([], [])
    else
      var r := resting[|resting| - 1];
      var (kept, events) := DropInstrument(resting[..|resting| - 1], instrument, now);
      if r.order.instrument == instrument then
        (kept, events + [OrderCanceled(r.id, VenueCanceled, now)])
      else
        (kept + [r], events)
  }

  function LiquidationFill(cfg: Config, shadow: Shadow, bar: Bar): Staged {
    var side := if shadow.net > 0 then Sell else Buy;
    Staged(0, bar.instrument, side, Slipped(cfg, bar.close, side), Abs(shadow.net), true)
  }

  function CheckLiquidation(cfg: Config, v: Venue, bar: Bar, now: int): (Venue, seq<AccountEvent>) {
    var shadow := ShadowOf(v.shadows, bar.instrument);
    if !MustLiquidate(cfg, shadow, bar.close) then
      (v, [])
    else
      var f := LiquidationFill(cfg, shadow, bar);
      var (kept, canceled) := DropInstrument(v.resting, bar.instrument, now);
      (SettleOne(cfg, v, f).(resting := kept),
       [Liquidation(f.instrument, f.side, f.price, f.qty, FeeCosts(cfg, f.instrument, f.price, f.qty), now)] + canceled)
  }

  function VolumeCap(cfg: Config, bar: Bar): Option<int> {
    match cfg.participationBps
    case None => None
    case Some(bps) => Some(TruncDiv(bar.volume * bps, 10_000))
  }

  function Marked(v: Venue, bar: Bar): Venue {
    v.(shadows := v.shadows[bar.instrument := ShadowOf(v.shadows, bar.instrument).(mark := bar.close)])
  }

  function ScanStart(cfg: Config, v: Venue, bar: Bar): Scan {
    Scan([], [], [], [], ShadowOf(v.shadows, bar.instrument).net, VolumeCap(cfg, bar), v.drawn)
  }

  function ScanBar(cfg: Config, v: Venue, bar: Bar, now: int): Scan {
    ScanOrders(cfg, bar, now, v.resting, ScanStart(cfg, v, bar))
  }

  /** One bar: mark, scan, settle the staged fills, resolve claimed groups, fund, liquidate. */
  function Observed(cfg: Config, v: Venue, bar: Bar, now: int): (Venue, seq<AccountEvent>) {
    var marked := Marked(v, bar);
    var s := ScanBar(cfg, marked, bar, now);
    var (settled, fills) := SettleFills(cfg, marked.(resting := s.kept, drawn := s.drawn), s.staged, now);
    var (legs, resolved) := ResolveClaims(settled.resting, s.claims, now);
    var (funded, funding) := AccrueFunding(cfg, settled.(resting := legs), bar, now);
    var (final, liquidated) := CheckLiquidation(cfg, funded, bar, now);
    (final, s.events + fills + resolved + funding + liquidated)
  }

  /** A bar that meets a single resting order. */
  lemma ScanSingle(cfg: Config, bar: Bar, now: int, r: Resting, start: Scan)
    ensures ScanOrders(cfg, bar, now, [r], start) == Advance(start, r, Decide(cfg, bar, now, start, r), now)
  {
    hide Decide, Advance;
    assert [r][..0] == [];
    assert ScanOrders(cfg, bar, now, [], start) == start;
  }

  lemma SettleSingle(cfg: Config, v: Venue, f: Staged, now: int)
    ensures SettleFills(cfg, v, [f], now) == (SettleOne(cfg, v, f), [FillEvent(cfg, f, now)])
  {
    hide SettleOne, FillEvent;
    assert [f][..0] == [];
    assert SettleFills(cfg, v, [], now) == (v, []);
    assert [] + [FillEvent(cfg, f, now)] == [FillEvent(cfg, f, now)];
  }

  // ---------------------------------------------------------------- runs of the venue

  datatype Op = Submit(id: nat, order: Order, now: int) | Cancel(id: nat, now: int) | Observe(bar: Bar, now: int)

  function Exec(cfg: Config, v: Venue, op: Op): (Venue, seq<AccountEvent>) {
    match op
    case Submit(id, order, now) => Submitted(cfg, v, id, order, now)
    case Cancel(id, now) => Canceled(v, id, now)
    case Observe(bar, now) => Observed(cfg, v, bar, now)
  }

  function Opened(cash: Option<int>): Venue {
    Venue([], map[], cash, 0)
  }

  /** The venue after any sequence of operations, and everything it emitted. */
  function RunOps(cfg: Config, cash: Option<int>, ops: seq<Op>): (Venue, seq<AccountEvent>) {
    if ops == [] then
      (Opened(cash), [])
    else
      var (v, log) := RunOps(cfg, cash, ops[..|ops| - 1]);
      var (w, events) := Exec(cfg, v, ops[|ops| - 1]);
      (w, log + events)
  }

  /** Submissions carry fresh ids, as the engine's monotone id counter assigns them. */
  ghost predicate FreshIds(ops: seq<Op>) {
    forall i, j :: 0 <= i < j < |ops| && ops[i].Submit? && ops[j].Submit? ==> ops[i].id < ops[j].id
  }
}
