/**
 * What each order kind and time-in-force means, stated from outside the evaluation: an order acts
 * exactly when the bar touches a price it accepts, a trailing stop follows the extreme of every bar
 * it has seen, and the terms that restrict how an order may trade are honoured.
 */
module OrderTerms {
  import opened Prelude
  import opened Trading
  import opened Exchange
  import opened Lifecycle
  import opened FillSafety
  import opened Engine
  import opened Sorting

  // ---------------------------------------------------------------- acting exactly when touched

  /** The bar trades at this price at some point. */
  predicate Touches(bar: Bar, price: int) {
    bar.low <= price <= bar.high
  }

  /** Prices at which an order of this kind acts: the limit's side, or past the trigger. */
  predicate AcceptsPrice(kind: OrderKind, side: Side, price: int)
    requires !kind.TrailingStop?
  {
    match kind
    case Market => true
    case Limit(limit) => if side.Buy? then price <= limit else price >= limit
    case Stop(trigger) => if side.Buy? then price >= trigger else price <= trigger
    case StopLimit(trigger, _) => if side.Buy? then price >= trigger else price <= trigger
    case MarketIfTouched(trigger) => if side.Buy? then price <= trigger else price >= trigger
  }

  ghost predicate TouchesAccepted(kind: OrderKind, side: Side, bar: Bar)
    requires !kind.TrailingStop?
  {
    exists price :: Touches(bar, price) && AcceptsPrice(kind, side, price)
  }

  lemma TouchWitness(kind: OrderKind, side: Side, bar: Bar)
    requires WellFormedBar(bar) && !kind.TrailingStop?
    ensures TouchesAccepted(kind, side, bar) <==> AcceptsPrice(kind, side, bar.low) || AcceptsPrice(kind, side, bar.high)
  {
    assert Touches(bar, bar.low) && Touches(bar, bar.high);
  }

  /** Whether the order works at all: a stop-limit does once its trigger has been met. */
  predicate Works(r: Resting) {
    r.order.kind.StopLimit? ==> r.armed
  }

  /** What it works as: a stop-limit, once armed, is a limit order. */
  function WorksAs(kind: OrderKind): OrderKind {
    if kind.StopLimit? then Limit(kind.limit) else kind
  }

  /** The price at which it became active: a stop-limit armed by this bar at its trigger, all others at the open. */
  function ActiveFrom(r: Resting, bar: Bar): int {
    if r.order.kind.StopLimit? && !r.armed then r.order.kind.trigger else bar.open
  }

  /**
   * What every order but a trailing stop does on a bar. A stop-limit arms exactly when the bar
   * touches its trigger side. Post-only orders that would take at the moment they become active are
   * canceled, and only they. Whatever else works fills exactly when the bar touches a price it
   * accepts.
   */
  lemma ActsExactlyWhenTouched(r: Resting, bar: Bar)
    requires WellFormedBar(bar) && !r.order.kind.TrailingStop?
    ensures var (e, outcome) := Evaluate(r, bar);
            var order := r.order;
            var takes := order.postOnly && order.kind.Passive() && Marketable(order.side, order.kind.limit, ActiveFrom(r, bar));
            && (order.kind.StopLimit? ==> (e.armed <==> r.armed || TouchesAccepted(order.kind, order.side, bar)))
            && (outcome.CancelFor? <==> Works(e) && takes)
            && (outcome.FillAt? <==> Works(e) && !takes && TouchesAccepted(WorksAs(order.kind), order.side, bar))
  {
    TouchWitness(r.order.kind, r.order.side, bar);
    TouchWitness(WorksAs(r.order.kind), r.order.side, bar);
  }

  // ---------------------------------------------------------------- trailing stops

  /** The order after being evaluated against these bars, in turn. */
  function Watched(r: Resting, bars: seq<Bar>): Resting {
    if bars == [] then r else Evaluate(Watched(r, bars[..|bars| - 1]), bars[|bars| - 1]).0
  }

  /** The side of the bar a trailing stop follows: highs for a sell, lows for a buy. */
  function Followed(side: Side, bar: Bar): int {
    if side.Sell? then bar.high else bar.low
  }

  ghost predicate ExtremeOf(side: Side, bars: seq<Bar>, x: int) {
    && (exists bar :: bar in bars && Followed(side, bar) == x)
    && (forall bar :: bar in bars ==> if side.Sell? then Followed(side, bar) <= x else Followed(side, bar) >= x)
  }

  lemma ExtremeGrows(side: Side, bars: seq<Bar>, bar: Bar, x: int)
    requires bars == [] || ExtremeOf(side, bars, x)
    ensures var y := if bars == [] then Followed(side, bar)
                     else if side.Sell? then Max(x, Followed(side, bar)) else Min(x, Followed(side, bar));
            ExtremeOf(side, bars + [bar], y)
  {
    var all := bars + [bar];
    assert all[|bars|] == bar && bar in all;
    if bars != [] {
      var b :| b in bars && Followed(side, b) == x;
      assert b in all;
    }
  }

  /** Evaluating a trailing stop widens its reference to the bar's followed side. */
  lemma TrailStep(r: Resting, bar: Bar)
    requires r.order.kind.TrailingStop?
    ensures var x := Followed(r.order.side, bar);
            Evaluate(r, bar).0 == r.(trailRef := Some(
              match r.trailRef
              case None => x
              case Some(y) => if r.order.side.Sell? then Max(y, x) else Min(y, x)))
  {
    hide TrailOffset, StopTriggered;
  }

  /** A trailing stop's reference is the extreme of every bar it has watched. */
  lemma {:induction false} TrailFollowsTheExtreme(r: Resting, bars: seq<Bar>)
    requires r.order.kind.TrailingStop? && r.trailRef == None && bars != []
    ensures var w := Watched(r, bars);
            w.order == r.order && w.trailRef.Some? && ExtremeOf(r.order.side, bars, w.trailRef.value)
  {
    hide ExtremeOf, Evaluate, Followed;
    var init, bar := bars[..|bars| - 1], bars[|bars| - 1];
    assert bars == init + [bar];
    if init != [] {
      TrailFollowsTheExtreme(r, init);
    }
    TrailStep(Watched(r, init), bar);
    ExtremeGrows(r.order.side, init, bar, Watched(r, init).trailRef.GetOr(0));
  }

  /** And it fires exactly when the bar comes back from that extreme by the trail, at that price. */
  lemma TrailFiresAtTheOffset(r: Resting, bars: seq<Bar>, bar: Bar)
    requires r.order.kind.TrailingStop? && r.trailRef == None
    ensures var w := Watched(r, bars);
            var (e, outcome) := Evaluate(w, bar);
            && e.trailRef.Some? && ExtremeOf(r.order.side, bars + [bar], e.trailRef.value)
            && var offset := TrailOffset(r.order.kind.trail, e.trailRef.value);
               var trigger := if r.order.side.Sell? then e.trailRef.value - offset else e.trailRef.value + offset;
               outcome == if StopTriggered(r.order.side, trigger, bar) then FillAt(trigger) else Rest
  {
    var all := bars + [bar];
    TrailFollowsTheExtreme(r, all);
    assert all[..|all| - 1] == bars;
    WatchedKeepsOrder(r, bars);
    hide ExtremeOf, TrailOffset;
  }

  lemma {:induction false} WatchedKeepsOrder(r: Resting, bars: seq<Bar>)
    ensures Watched(r, bars).order == r.order
  {
    if bars != [] {
      WatchedKeepsOrder(r, bars[..|bars| - 1]);
      EvaluateKeeps(Watched(r, bars[..|bars| - 1]), bars[|bars| - 1]);
    }
  }

  // ---------------------------------------------------------------- time in force and latency

  /** The order is live on this bar: of its instrument, and past its latency. */
  predicate Live(r: Resting, bar: Bar) {
    r.order.instrument == bar.instrument && r.activateIn == 0
  }

  lemma SizedByTerms(cfg: Config, bar: Bar, now: int, s: Scan, r: Resting, base: int, triggered: bool, drew: bool)
    ensures var d := DecideFill(cfg, bar, now, s, r, base, triggered, drew);
            && (r.order.tif != Gtc ==> d.kept.None?)
            && (r.order.tif == Fok && d.staged.Some? ==> d.staged.value.qty >= r.order.qty - r.filled)
  {
    hide FillPrice;
  }

  /**
   * An immediate order never rests past its first live bar, unless it is conditional and still
   * dormant; and a fill-or-kill order fills all that is left of it or nothing.
   */
  lemma ImmediateOrdersDoNotRest(cfg: Config, bar: Bar, now: int, s: Scan, r: Resting)
    requires Sound(cfg, r) && Live(r, bar) && r.order.tif != Gtc
    ensures var d := Decide(cfg, bar, now, s, r);
            && (d.kept.Some? ==> r.order.kind.Conditional() && !d.kept.value.armed)
            && (r.order.tif == Fok && d.staged.Some? ==> d.staged.value.qty == r.order.qty - r.filled)
  {
    DecisionFate(cfg, bar, now, s, r);
    EvaluateKeeps(r, bar);
    hide Evaluate, DecideFill;
    var (e, outcome) := Evaluate(r, bar);
    if outcome.FillAt? {
      var fired := Fire(e);
      SizedByTerms(cfg, bar, now, s, fired, outcome.price, !r.armed && fired.armed, TouchIsUncertain(cfg, r.order, bar));
    }
  }

  // ---------------------------------------------------------------- schedules and timers

  /** The rate in force is that of the latest scheduled point not after now; zero before the first. */
  lemma {:induction false} FundingRateIsLatest(schedule: seq<(int, int)>, now: int)
    requires forall i, j :: 0 <= i < j < |schedule| ==> schedule[i].0 <= schedule[j].0
    ensures var rate := FundingRateAt(schedule, now);
            || (rate == 0 && forall i :: 0 <= i < |schedule| ==> schedule[i].0 > now)
            || (exists k :: 0 <= k < |schedule| && InForce(schedule, now, k) && rate == schedule[k].1)
  {
    if schedule != [] {
      var last := |schedule| - 1;
      if schedule[last].0 <= now {
        assert InForce(schedule, now, last);
      } else {
        var init := schedule[..last];
        FundingRateIsLatest(init, now);
        if k :| 0 <= k < |init| && InForce(init, now, k) && FundingRateAt(init, now) == init[k].1 {
          assert InForce(schedule, now, k) && schedule[k] == init[k];
        }
      }
    }
  }

  ghost predicate InForce(schedule: seq<(int, int)>, now: int, k: nat)
    requires k < |schedule|
  {
    schedule[k].0 <= now && forall i :: k < i < |schedule| ==> schedule[i].0 > now
  }

  /** Due timers fire in time order. */
  lemma {:induction false} DueInOrder(timers: seq<int>, now: int)
    ensures Sorted(Due(timers, now), SoonerTimer)
  {
    if timers != [] {
      DueInOrder(timers[1..], now);
      hide Sorted;
      if timers[0] <= now { InsertKeepsSorted(timers[0], Due(timers[1..], now), SoonerTimer); }
    }
  }

  /** Each timer is either due exactly once or stays. */
  lemma {:induction false} TimersArePartitioned(timers: seq<int>, now: int)
    ensures multiset(Due(timers, now)) + multiset(NotDue(timers, now)) == multiset(timers)
  {
    if timers != [] {
      var first, rest := timers[0], timers[1..];
      TimersArePartitioned(rest, now);
      assert timers == [first] + rest;
      if first <= now {
        InsertIsPermutation(first, Due(rest, now), SoonerTimer);
      }
    }
  }

  /** A timer is due exactly when its time has come. */
  lemma {:induction false} DueByNow(timers: seq<int>, now: int)
    ensures forall t :: t in multiset(Due(timers, now)) ==> t <= now
    ensures forall t :: t in NotDue(timers, now) ==> t > now
  {
    if timers != [] {
      DueByNow(timers[1..], now);
      if timers[0] <= now {
        InsertIsPermutation(timers[0], Due(timers[1..], now), SoonerTimer);
      }
    }
  }
}
