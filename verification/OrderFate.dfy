/**
 * What becomes of a resting order on a bar, said in terms of the prices the bar touches, the order's
 * own terms and what the orders before it took: exactly when it fills, of how much and at what price,
 * exactly when it stays, and exactly when and why it ends.
 */
module OrderFate {
  import opened Prelude
  import opened Trading
  import opened Exchange
  import opened Lifecycle
  import opened FillSafety
  import opened OrderTerms
  import opened FillCosts

  // ---------------------------------------------------------------- what the bar means to the order

  /** A trailing stop's reference: the extreme it has followed, this bar included. */
  function TrailRef(r: Resting, bar: Bar): int {
    var x := Followed(r.order.side, bar);
    match r.trailRef
    case None => x
    case Some(y) => if r.order.side.Sell? then Max(y, x) else Min(y, x)
  }

  function TrailTrigger(r: Resting, bar: Bar): int
    requires r.order.kind.TrailingStop?
  {
    TrailRef(r, bar) + r.order.side.Sign() * TrailOffset(r.order.kind.trail, TrailRef(r, bar))
  }

  /** A trail is a distance, or a part of the reference in basis points, rounded toward zero. */
  lemma TrailOffsetIsExact(trail: TrailKind, ref: int)
    ensures trail.Absolute? ==> TrailOffset(trail, ref) == trail.offset
    ensures trail.Percent? ==> Truncates(TrailOffset(trail, ref), ref * trail.bps)
  {
    if trail.Percent? { BpsTruncates(ref, trail.bps); }
  }

  /** What triggers it: a trailing stop is a stop at the price its trail leads to. */
  function TriggerKind(r: Resting, bar: Bar): (kind: OrderKind)
    ensures !kind.TrailingStop?
  {
    if r.order.kind.TrailingStop? then Stop(TrailTrigger(r, bar)) else r.order.kind
  }

  ghost predicate Triggered(r: Resting, bar: Bar) {
    TouchesAccepted(TriggerKind(r, bar), r.order.side, bar)
  }

  /** A stop-limit works once its trigger has been met; every other order works from the start. */
  ghost predicate Awake(r: Resting, bar: Bar) {
    r.order.kind.StopLimit? ==> r.armed || Triggered(r, bar)
  }

  function WorkingKind(r: Resting, bar: Bar): (kind: OrderKind)
    ensures !kind.TrailingStop?
  {
    WorksAs(TriggerKind(r, bar))
  }

  /** A post-only order whose limit accepts the very price it became active at. */
  ghost predicate TakesAtOnce(r: Resting, bar: Bar) {
    && Awake(r, bar) && r.order.postOnly && r.order.kind.Passive()
    && AcceptsPrice(WorkingKind(r, bar), r.order.side, ActiveFrom(r, bar))
  }

  /** The bar trades at a price the order, as it works, accepts. */
  ghost predicate Wants(r: Resting, bar: Bar) {
    Awake(r, bar) && !TakesAtOnce(r, bar) && TouchesAccepted(WorkingKind(r, bar), r.order.side, bar)
  }

  /** Of all prices it accepts the bar trades at its limit alone. */
  ghost predicate JustTouched(r: Resting, bar: Bar) {
    && r.order.kind.Passive()
    && forall p :: Touches(bar, p) && AcceptsPrice(WorkingKind(r, bar), r.order.side, p) ==> p == r.order.kind.limit
  }

  /** Whether a resting limit at the touch fills is a draw. */
  ghost predicate Uncertain(cfg: Config, r: Resting, bar: Bar) {
    Live(r, bar) && cfg.makerFillBps.Some? && Wants(r, bar) && JustTouched(r, bar)
  }

  /** Conditional, and still waiting for its trigger after this bar. */
  ghost predicate Dormant(r: Resting, bar: Bar) {
    r.order.kind.Conditional() && !r.armed && !Triggered(r, bar)
  }

  /**
   * The price before slippage: of all prices it accepts, the nearest to the one it became active at;
   * but an order that waits for a favourable touch, or trails, gets its trigger.
   */
  ghost predicate IsBase(r: Resting, bar: Bar, base: int) {
    if r.order.kind.MarketIfTouched? then base == r.order.kind.trigger
    else if r.order.kind.TrailingStop? then base == TrailTrigger(r, bar)
    else NearestAccepted(WorkingKind(r, bar), r.order.side, ActiveFrom(r, bar), base)
  }

  ghost predicate NearestAccepted(kind: OrderKind, side: Side, from: int, base: int)
    requires !kind.TrailingStop?
  {
    AcceptsPrice(kind, side, base) && forall p :: AcceptsPrice(kind, side, p) ==> Abs(base - from) <= Abs(p - from)
  }

  // ---------------------------------------------------------------- what it meets when its turn comes

  /** What the orders before it leave: volume, position, whether its group has filled, and the draws used. */
  datatype Met = Met(cap: Option<int>, net: int, claimed: bool, drawn: nat)

  /** The position an order on this side would reduce. */
  function Opposed(net: int, side: Side): nat {
    Max(-side.Sign() * net, 0)
  }

  /** As much as is left of the order, of the volume, and, for a reduce-only order, of the position. */
  function SizeOf(r: Resting, met: Met): int {
    var left := r.order.qty - r.filled;
    var room := if met.cap.Some? then Min(left, Max(met.cap.value, 0)) else left;
    if r.order.reduceOnly then Min(room, Opposed(met.net, r.order.side)) else room
  }

  /** Nothing is left to do: the order is filled, or has used up the position it may reduce. */
  predicate Finishes(r: Resting, met: Met) {
    r.filled + SizeOf(r, met) == r.order.qty || (r.order.reduceOnly && SizeOf(r, met) == Opposed(met.net, r.order.side))
  }

  /** The draw of an uncertain touch went against it. */
  ghost predicate Missed(cfg: Config, r: Resting, bar: Bar, met: Met) {
    Uncertain(cfg, r, bar) && cfg.draws(met.drawn) % 10_000 >= cfg.makerFillBps.value
  }

  /** It may trade at all. */
  ghost predicate Acts(cfg: Config, r: Resting, bar: Bar, met: Met) {
    Live(r, bar) && Wants(r, bar) && !Missed(cfg, r, bar, met)
  }

  // ---------------------------------------------------------------- its fate in the pass

  ghost predicate Fills(cfg: Config, r: Resting, bar: Bar, met: Met) {
    && Acts(cfg, r, bar, met) && !met.claimed
    && SizeOf(r, met) > 0 && (r.order.tif == Fok ==> SizeOf(r, met) == r.order.qty - r.filled)
  }

  ghost predicate FillsUp(cfg: Config, r: Resting, bar: Bar, met: Met) {
    Fills(cfg, r, bar, met) && Finishes(r, met)
  }

  /** A post-only order that would take. */
  ghost predicate Refused(r: Resting, bar: Bar) {
    Live(r, bar) && TakesAtOnce(r, bar)
  }

  /** Another leg of its group filled first on this bar. */
  ghost predicate Beaten(cfg: Config, r: Resting, bar: Bar, met: Met) {
    Acts(cfg, r, bar, met) && met.claimed
  }

  /** A reduce-only order with no position to reduce. */
  ghost predicate Useless(cfg: Config, r: Resting, bar: Bar, met: Met) {
    && Acts(cfg, r, bar, met) && !met.claimed && r.order.tif != Fok
    && r.order.reduceOnly && Opposed(met.net, r.order.side) == 0
  }

  ghost predicate Ends(cfg: Config, r: Resting, bar: Bar, met: Met) {
    Refused(r, bar) || Beaten(cfg, r, bar, met) || Useless(cfg, r, bar, met) || FillsUp(cfg, r, bar, met)
  }

  /** It is put back: not live yet, or not over and either good till canceled or dormant. */
  ghost predicate Stays(cfg: Config, r: Resting, bar: Bar, met: Met) {
    !Live(r, bar) || (!Ends(cfg, r, bar, met) && (r.order.tif == Gtc || Dormant(r, bar)))
  }

  ghost predicate Expires(cfg: Config, r: Resting, bar: Bar, met: Met) {
    Live(r, bar) && !Ends(cfg, r, bar, met) && r.order.tif != Gtc && !Dormant(r, bar)
  }

  /** Its trigger is reported: a stop-limit's when it is met, any other's when it first acts. */
  ghost predicate Fires(cfg: Config, r: Resting, bar: Bar, met: Met) {
    && Live(r, bar) && r.order.kind.Conditional() && !r.armed
    && (if r.order.kind.StopLimit? then Triggered(r, bar) else Acts(cfg, r, bar, met) && !met.claimed)
  }

  /** What is put back: one bar closer to working, or with its trigger, its trail and its fill recorded. */
  ghost function Left(cfg: Config, r: Resting, bar: Bar, met: Met): Resting {
    if r.order.instrument != bar.instrument then r
    else if r.activateIn > 0 then r.(activateIn := r.activateIn - 1)
    else r.(armed := r.armed || Fires(cfg, r, bar, met),
            trailRef := if r.order.kind.TrailingStop? then Some(TrailRef(r, bar)) else r.trailRef,
            filled := r.filled + if Fills(cfg, r, bar, met) then SizeOf(r, met) else 0)
  }

  /** The price of its fill: what it accepts at its limit, or a taker's price. */
  ghost predicate IsPrice(cfg: Config, r: Resting, bar: Bar, qty: int, price: int) {
    exists base, a: Adversity :: IsBase(r, bar, base) && PriceFrom(cfg, r, bar, qty, price, base, a)
  }

  predicate PriceFrom(cfg: Config, r: Resting, bar: Bar, qty: int, price: int, base: int, a: Adversity) {
    if r.order.kind.Passive() then price == base else TakerPrice(cfg, base, r.order.side, qty, bar.volume, price, a)
  }

  /** The fill it gets. */
  ghost predicate IsFill(cfg: Config, r: Resting, bar: Bar, met: Met, f: Staged) {
    && f.id == r.id && f.instrument == r.order.instrument && f.side == r.order.side
    && f.qty == SizeOf(r, met) && f.complete == Finishes(r, met)
    && IsPrice(cfg, r, bar, f.qty, f.price)
  }

  /** The event that ends it, if one does beside its fill. */
  ghost function Ending(cfg: Config, r: Resting, bar: Bar, now: int, met: Met): Option<AccountEvent> {
    if Refused(r, bar) || Useless(cfg, r, bar, met) then Some(OrderCanceled(r.id, VenueCanceled, now))
    else if Beaten(cfg, r, bar, met) then Some(OrderCanceled(r.id, OcoTriggered, now))
    else if Expires(cfg, r, bar, met) then Some(OrderExpired(r.id, now))
    else None
  }

  // ---------------------------------------------------------------- one decision

  lemma TrailEvaluates(r: Resting, bar: Bar)
    requires WellFormedBar(bar) && r.order.kind.TrailingStop?
    ensures var (e, outcome) := Evaluate(r, bar);
            && e == r.(trailRef := Some(TrailRef(r, bar)))
            && (if Wants(r, bar) then outcome == FillAt(TrailTrigger(r, bar)) else outcome == Rest)
  {
    TrailStep(r, bar);
    TouchWitness(TriggerKind(r, bar), r.order.side, bar);
    hide TrailOffset;
  }

  lemma BaseIsNearest(r: Resting, bar: Bar)
    requires WellFormedBar(bar) && !r.order.kind.TrailingStop? && Evaluate(r, bar).1.FillAt?
    ensures IsBase(r, bar, Evaluate(r, bar).1.price)
  {
  }

  /** Evaluating an order is asking which prices the bar touches. */
  lemma EvaluateTouches(r: Resting, bar: Bar)
    requires WellFormedBar(bar)
    ensures var (e, outcome) := Evaluate(r, bar);
            && e == r.(armed := r.armed || (r.order.kind.StopLimit? && Triggered(r, bar)),
                       trailRef := if r.order.kind.TrailingStop? then Some(TrailRef(r, bar)) else r.trailRef)
            && (outcome.FillAt? <==> Wants(r, bar)) && (outcome.FillAt? ==> IsBase(r, bar, outcome.price))
            && (outcome.CancelFor? <==> TakesAtOnce(r, bar)) && (outcome.CancelFor? ==> outcome.reason == VenueCanceled)
  {
    if r.order.kind.TrailingStop? {
      TrailEvaluates(r, bar);
    } else {
      PlainEvaluates(r, bar);
    }
    hide Evaluate, Wants, TakesAtOnce, Triggered, TrailTrigger;
  }

  lemma PlainEvaluates(r: Resting, bar: Bar)
    requires WellFormedBar(bar) && !r.order.kind.TrailingStop?
    ensures var (e, outcome) := Evaluate(r, bar);
            && e == r.(armed := r.armed || (r.order.kind.StopLimit? && Triggered(r, bar)))
            && (outcome.FillAt? <==> Wants(r, bar)) && (outcome.FillAt? ==> IsBase(r, bar, outcome.price))
            && (outcome.CancelFor? <==> TakesAtOnce(r, bar)) && (outcome.CancelFor? ==> outcome.reason == VenueCanceled)
  {
    ActsExactlyWhenTouched(r, bar);
    EvaluateKeepsTrail(r, bar);
    if Evaluate(r, bar).1.FillAt? { BaseIsNearest(r, bar); }
    hide Evaluate, TouchesAccepted, IsBase;
  }

  lemma EvaluateKeepsTrail(r: Resting, bar: Bar)
    requires !r.order.kind.TrailingStop?
    ensures var (e, outcome) := Evaluate(r, bar);
            && e == r.(armed := e.armed) && (!r.order.kind.StopLimit? ==> e == r)
            && (outcome.CancelFor? ==> outcome.reason == VenueCanceled)
  {
  }

  lemma OpposedIsReducible(net: int, side: Side)
    ensures Reducible(net, side) == Opposed(net, side)
  {
  }

  /** What the size of a fill decides, for an order that may take. */
  lemma SizeDecides(cfg: Config, bar: Bar, now: int, s: Scan, r: Resting, base: int, triggered: bool, drew: bool, met: Met)
    requires 0 <= r.filled < r.order.qty && met.cap == s.cap && met.net == s.net
    ensures var d := DecideFill(cfg, bar, now, s, r, base, triggered, drew);
            var size := SizeOf(r, met);
            var fits := size > 0 && (r.order.tif == Fok ==> size == r.order.qty - r.filled);
            var useless := r.order.reduceOnly && Opposed(met.net, r.order.side) == 0 && r.order.tif != Fok;
            && d.triggered == triggered && d.drew == drew
            && (d.staged.Some? <==> fits)
            && (fits ==> d.staged == Some(Staged(r.id, r.order.instrument, r.order.side,
                  if r.order.kind.Passive() then base else FillPrice(cfg, base, r.order.side, size, bar.volume), size, Finishes(r, met))))
            && (fits && Finishes(r, met) ==> d.kept.None? && d.ended.None?)
            && (!(fits && Finishes(r, met)) ==>
                  if useless then d.kept.None? && d.ended == Some(OrderCanceled(r.id, VenueCanceled, now))
                  else if r.order.tif == Gtc then
                    d.kept == Some(r.(filled := r.filled + if fits then size else 0)) && d.ended.None?
                  else d.kept.None? && d.ended == Some(OrderExpired(r.id, now)))
  {
    OpposedIsReducible(s.net, r.order.side);
    hide FillPrice, Reducible, Opposed;
  }

  /** The pass does with the order what becomes of it. */
  ghost predicate IsFate(cfg: Config, r: Resting, bar: Bar, now: int, met: Met, d: Decision) {
    && d.kept == (if Stays(cfg, r, bar, met) then Some(Left(cfg, r, bar, met)) else None)
    && d.ended == Ending(cfg, r, bar, now, met)
    && d.triggered == Fires(cfg, r, bar, met)
    && d.drew == Uncertain(cfg, r, bar)
    && (d.staged.Some? <==> Fills(cfg, r, bar, met))
    && (d.staged.Some? ==> IsFill(cfg, r, bar, met, d.staged.value))
    && d.filled == r.filled + if d.staged.Some? then d.staged.value.qty else 0
  }

  ghost function MetAt(s: Scan, r: Resting): Met {
    Met(s.cap, s.net, ClaimedByOther(s.claims, r.order, r.id), s.drawn)
  }

  lemma NotLiveFate(cfg: Config, bar: Bar, now: int, s: Scan, r: Resting)
    requires !Live(r, bar)
    ensures IsFate(cfg, r, bar, now, MetAt(s, r), Decide(cfg, bar, now, s, r))
  {
  }

  lemma UnwantedFate(cfg: Config, bar: Bar, now: int, s: Scan, r: Resting)
    requires WellFormedBar(bar) && Live(r, bar) && !Wants(r, bar)
    ensures IsFate(cfg, r, bar, now, MetAt(s, r), Decide(cfg, bar, now, s, r))
  {
    EvaluateTouches(r, bar);
    UnwantedIsDormant(r, bar);
    hide Evaluate, DecideFill, TouchIsUncertain, DrawFills, ClaimedByOther, Wants, TakesAtOnce, Triggered, IsBase, TrailRef, Finishes, SizeOf;
  }

  /** An order the bar does not reach, and that does not take at once, waits for its trigger or for its limit. */
  lemma UnwantedIsDormant(r: Resting, bar: Bar)
    requires !Wants(r, bar)
    ensures r.order.kind.Conditional() && !r.order.kind.StopLimit? ==> !Triggered(r, bar)
    ensures TakesAtOnce(r, bar) && r.order.kind.StopLimit? ==> r.armed || Triggered(r, bar)
  {
    hide TouchesAccepted;
  }

  lemma TouchIsExact(cfg: Config, r: Resting, bar: Bar)
    requires WellFormedBar(bar) && Live(r, bar) && Wants(r, bar)
    ensures TouchIsUncertain(cfg, r.order, bar) <==> Uncertain(cfg, r, bar)
  {
    if r.order.kind.Passive() {
      assert Touches(bar, bar.low) && Touches(bar, bar.high);
      var p :| Touches(bar, p) && AcceptsPrice(WorkingKind(r, bar), r.order.side, p);
    }
  }

  lemma MissedFate(cfg: Config, bar: Bar, now: int, s: Scan, r: Resting)
    requires WellFormedBar(bar) && Live(r, bar) && Wants(r, bar) && (Missed(cfg, r, bar, MetAt(s, r)) || MetAt(s, r).claimed)
    ensures IsFate(cfg, r, bar, now, MetAt(s, r), Decide(cfg, bar, now, s, r))
  {
    EvaluateTouches(r, bar);
    TouchIsExact(cfg, r, bar);
    WantedIsTriggered(r, bar);
    hide Evaluate, DecideFill, TouchIsUncertain, ClaimedByOther, Wants, TakesAtOnce, Triggered, IsBase, TrailRef, Finishes, SizeOf, JustTouched;
  }

  lemma WantedIsTriggered(r: Resting, bar: Bar)
    requires Wants(r, bar)
    ensures !TakesAtOnce(r, bar)
    ensures r.order.kind.StopLimit? ==> r.armed || Triggered(r, bar)
    ensures r.order.kind.Conditional() && !r.order.kind.StopLimit? ==> Triggered(r, bar)
  {
    hide TouchesAccepted;
  }

  /** An order that acts takes what its size allows, triggered if it had to be. */
  lemma ActingDecides(cfg: Config, bar: Bar, now: int, s: Scan, r: Resting) returns (fired: Resting, base: int)
    requires WellFormedBar(bar) && Acts(cfg, r, bar, MetAt(s, r)) && !MetAt(s, r).claimed
    ensures fired == Left(cfg, r, bar, MetAt(s, r)).(filled := r.filled) && IsBase(r, bar, base)
    ensures Decide(cfg, bar, now, s, r)
            == DecideFill(cfg, bar, now, s, fired, base, Fires(cfg, r, bar, MetAt(s, r)), Uncertain(cfg, r, bar))
  {
    EvaluateTouches(r, bar);
    TouchIsExact(cfg, r, bar);
    WantedIsTriggered(r, bar);
    hide Evaluate, DecideFill, TouchIsUncertain, ClaimedByOther, Wants, TakesAtOnce, Triggered, IsBase, TrailRef, SizeOf, JustTouched, Fills;
    var (e, outcome) := Evaluate(r, bar);
    fired, base := Fire(e), outcome.price;
  }

  lemma ActingFate(cfg: Config, bar: Bar, now: int, s: Scan, r: Resting)
    requires WellFormedBar(bar) && Sound(cfg, r) && Acts(cfg, r, bar, MetAt(s, r)) && !MetAt(s, r).claimed
    ensures IsFate(cfg, r, bar, now, MetAt(s, r), Decide(cfg, bar, now, s, r))
  {
    hide Decide, DecideFill, ClaimedByOther, TakesAtOnce, Triggered, IsBase, TrailRef, Finishes, SizeOf, IsPrice, FillPrice, Fires, Uncertain, Wants, Missed, Opposed;
    var met := MetAt(s, r);
    var fired, base := ActingDecides(cfg, bar, now, s, r);
    SameSize(r, fired, met);
    SizeDecides(cfg, bar, now, s, fired, base, Fires(cfg, r, bar, met), Uncertain(cfg, r, bar), met);
    FillCounts(cfg, bar, now, s, fired, base, Fires(cfg, r, bar, met), Uncertain(cfg, r, bar));
    ActingIsAwake(cfg, r, bar, met);
    UselessTakesNothing(r, met);
    if Fills(cfg, r, bar, met) { FillIsPriced(cfg, r, bar, base, SizeOf(r, met)); }
  }

  lemma UselessTakesNothing(r: Resting, met: Met)
    ensures r.order.reduceOnly && Opposed(met.net, r.order.side) == 0 ==> SizeOf(r, met) <= 0
  {
  }

  lemma ActingIsAwake(cfg: Config, r: Resting, bar: Bar, met: Met)
    requires Acts(cfg, r, bar, met)
    ensures Live(r, bar) && !Refused(r, bar) && !Dormant(r, bar)
  {
    WantedIsTriggered(r, bar);
    hide Wants, Triggered;
  }

  lemma FillCounts(cfg: Config, bar: Bar, now: int, s: Scan, r: Resting, base: int, triggered: bool, drew: bool)
    ensures var d := DecideFill(cfg, bar, now, s, r, base, triggered, drew);
            d.filled == r.filled + if d.staged.Some? then d.staged.value.qty else 0
  {
    hide FillPrice;
  }

  lemma SameSize(r: Resting, fired: Resting, met: Met)
    requires fired.order == r.order && fired.filled == r.filled
    ensures SizeOf(fired, met) == SizeOf(r, met) && Finishes(fired, met) == Finishes(r, met)
  {
  }

  lemma FillIsPriced(cfg: Config, r: Resting, bar: Bar, base: int, qty: int)
    requires IsBase(r, bar, base) && qty > 0
    ensures IsPrice(cfg, r, bar, qty, if r.order.kind.Passive() then base else FillPrice(cfg, base, r.order.side, qty, bar.volume))
  {
    var a := FillPriceIsExact(cfg, base, r.order.side, qty, bar.volume);
    assert PriceFrom(cfg, r, bar, qty, if r.order.kind.Passive() then base else FillPrice(cfg, base, r.order.side, qty, bar.volume), base, a);
  }

  lemma DecisionIsFate(cfg: Config, bar: Bar, now: int, s: Scan, r: Resting)
    requires WellFormedBar(bar) && Sound(cfg, r)
    ensures IsFate(cfg, r, bar, now, MetAt(s, r), Decide(cfg, bar, now, s, r))
  {
    hide IsFate, Decide, Wants, Missed, Sound;
    if !Live(r, bar) {
      NotLiveFate(cfg, bar, now, s, r);
    } else if !Wants(r, bar) {
      UnwantedFate(cfg, bar, now, s, r);
    } else if Missed(cfg, r, bar, MetAt(s, r)) || MetAt(s, r).claimed {
      MissedFate(cfg, bar, now, s, r);
    } else {
      ActingFate(cfg, bar, now, s, r);
    }
  }
}
