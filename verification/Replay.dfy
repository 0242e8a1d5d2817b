/**
 * Record and replay. A saved run is rebuilt from its fills alone: a synthetic grid of flat bars
 * and a strategy that resubmits one market order per bar, driven through the real engine and the
 * real venue. The replay reproduces the sorted trades exactly, and comparing it with the saved
 * report finds nothing to report.
 */
module Replay {
  import opened Prelude
  import opened Trading
  import opened AverageCost
  import opened Exchange
  import opened Portfolio
  import opened Engine
  import opened Sorting
  import opened TradeLedger

  // ---------------------------------------------------------------- the saved trades

  function SameTrade(f: FillRecord, g: FillRecord): bool {
    f.instrument == g.instrument && f.side == g.side && f.price == g.price && f.qty == g.qty && f.ts == g.ts
  }

  /** Replay order: by event time, then instrument. */
  predicate Earlier(f: FillRecord, g: FillRecord) {
    f.ts < g.ts || (f.ts == g.ts && f.instrument < g.instrument)
  }

  function SortedTrades(fills: seq<FillRecord>): seq<FillRecord> {
    StableSort(fills, Earlier)
  }

  // ---------------------------------------------------------------- feed, strategy, venue

  function FlatBar(instrument: nat, ts: int, price: int, volume: int): Bar {
    Bar(instrument, ts, price, price, price, price, volume)
  }

  /** A lead-in bar one tick before the first trade, then one bar per trade at its price and time. */
  function FeedOf(trades: seq<FillRecord>): seq<Event> {
    if trades == [] then
      []
    else
      [BarEvent(FlatBar(trades[0].instrument, trades[0].ts - 1, trades[0].price, trades[0].qty))]
      + seq(|trades|, i requires 0 <= i < |trades| =>
          BarEvent(FlatBar(trades[i].instrument, trades[i].ts, trades[i].price, trades[i].qty)))
  }

  /** The feed as the engine pulls it: one event per call until the grid is exhausted. */
  class ReplayFeed {
    const bars: seq<Event>
    var idx: nat

    /** What is still to come. */
    function Remaining(): seq<Event>
      reads this
    {
      if idx <= |bars| then bars[idx..] else []
    }

    constructor (fills: seq<FillRecord>)
      ensures Remaining() == FeedOf(SortedTrades(fills))
    {
      bars, idx := FeedOf(SortedTrades(fills)), 0;
    }

    method NextEvent() returns (e: Option<Event>)
      modifies this`idx
      ensures e == if old(Remaining()) == [] then None else Some(old(Remaining())[0])
      ensures Remaining() == if old(Remaining()) == [] then [] else old(Remaining())[1..]
    {
      if idx >= |bars| {
        return None;
      }
      e := Some(bars[idx]);
      idx := idx + 1;
    }
  }

  /** On the k-th bar, resubmit the k-th trade as a market order. */
  function StrategyOf(trades: seq<FillRecord>): Strategy<int> {
    Strategy(0, (next: int, callback: Callback, view: View) =>
      if callback.OnBar? && 0 <= next < |trades| then
        (next + 1, [SubmitOrder(MarketOrder(trades[next].instrument, trades[next].side, trades[next].qty))])
      else
        (next, []))
  }

  function CatalogueSize(trades: seq<FillRecord>): nat
    ensures CatalogueSize(trades) > 0
    ensures forall f :: f in trades ==> f.instrument < CatalogueSize(trades)
  {
    if trades == [] then 1
    else
      assert trades == trades[..|trades| - 1] + [trades[|trades| - 1]];
      var last := trades[|trades| - 1].instrument + 1;
      if CatalogueSize(trades[..|trades| - 1]) >= last then CatalogueSize(trades[..|trades| - 1]) else last
  }

  /** The venue a replay runs on: a flat fee and every other knob off. */
  function VenueFor(trades: seq<FillRecord>, feeBps: int): Config {
    Config(seq(CatalogueSize(trades), _ => Spec(false, 0)), feeBps, 0, 0, 0, None, 0, 0, None, None, (_: nat) => 0, map[], map[])
  }

  /** Replay a saved fill log from zero cash. */
  function ReplayTrades(fills: seq<FillRecord>, feeBps: int): Option<Sys<int>> {
    var trades := SortedTrades(fills);
    Finished(VenueFor(trades, feeBps), StrategyOf(trades), 0, None, FeedOf(trades))
  }

  /** The fill record the replay of the k-th trade produces. */
  function Replayed(trades: seq<FillRecord>, feeBps: int): seq<FillRecord> {
    seq(|trades|, k requires 0 <= k < |trades| =>
      FillRecord(k, trades[k].instrument, trades[k].side, trades[k].price, trades[k].qty,
                 MulBps(trades[k].price * trades[k].qty, feeBps), trades[k].ts))
  }

  // ---------------------------------------------------------------- one replayed bar

  lemma QuietCallback(trades: seq<FillRecord>, sys: Sys<int>, callback: Callback, now: int)
    requires !callback.OnBar? || !(0 <= sys.mind < |trades|)
    ensures Called(StrategyOf(trades), sys, callback, now) == sys
  {
  }

  lemma NothingToRoute(cfg: Config, sys: Sys<int>, now: int)
    requires sys.gate.pending == []
    ensures Routed(cfg, sys, now) == sys
  {
  }

  lemma NothingToDrain(cfg: Config, trades: seq<FillRecord>, sys: Sys<int>, now: int)
    requires sys.sink == []
    ensures Drained(cfg, StrategyOf(trades), sys, now) == Some(sys)
  {
  }

  lemma DrainOne(cfg: Config, trades: seq<FillRecord>, sys: Sys<int>, e: AccountEvent, now: int)
    requires sys.sink == [e] && sys.gate.pending == []
    ensures Drained(cfg, StrategyOf(trades), sys, now) == Some(sys.(account := Applied(sys.account, e), sink := []))
  {
    hide Called, Routed, Applied;
    var applied := sys.(account := Applied(sys.account, e));
    QuietCallback(trades, applied, OnSpecific(e), now);
    QuietCallback(trades, applied, OnAccount(e), now);
    NothingToRoute(cfg, applied, now);
    assert Handled(cfg, StrategyOf(trades), sys, e, now) == applied;
    assert DrainedFrom(cfg, StrategyOf(trades), applied, 1, now) == Some(applied.(sink := []));
  }

  lemma NoTimers(trades: seq<FillRecord>, sys: Sys<int>, now: int)
    requires sys.gate.timers == []
    ensures TimersFired(StrategyOf(trades), sys, now) == sys
  {
  }

  function OrderAt(trades: seq<FillRecord>, k: nat): Resting
    requires k < |trades|
  {
    Resting(k, MarketOrder(trades[k].instrument, trades[k].side, trades[k].qty), 0, false, None, 0)
  }

  /** The account is the trade ledger of its own fill log. */
  ghost predicate Booked(a: Account, instruments: nat) {
    Mirrors(a, TradedAll(EMPTY, a.fills), instruments)
  }

  lemma BookedStep(a: Account, instruments: nat, e: AccountEvent)
    requires Booked(a, instruments) && !e.Liquidation? && Catalogued(e, instruments)
    ensures Booked(Applied(a, e), instruments)
  {
    hide Applied, Traded, Mirrors;
    MirrorStep(a, TradedAll(EMPTY, a.fills), instruments, e);
    var fills := Applied(a, e).fills;
    assert e.Fill? ==> fills[..|fills| - 1] == a.fills;
  }

  /** k trades replayed, `next` orders sent, everything drained. */
  ghost predicate CaughtUp(trades: seq<FillRecord>, feeBps: int, sys: Sys<int>, k: nat, next: nat) {
    && k <= |trades|
    && sys.venue.cash == None
    && sys.account.fills == Replayed(trades, feeBps)[..k]
    && sys.mind == next && sys.gate == Gate(next, [], [])
    && sys.sink == []
    && Booked(sys.account, CatalogueSize(trades))
  }

  /** Between bars: the first k trades replayed and the next one resting. */
  ghost predicate Waiting(trades: seq<FillRecord>, feeBps: int, sys: Sys<int>, k: nat) {
    if k < |trades| then
      CaughtUp(trades, feeBps, sys, k, k + 1) && sys.venue.resting == [OrderAt(trades, k)]
    else
      CaughtUp(trades, feeBps, sys, k, k) && sys.venue.resting == []
  }

  /** Within a bar: the first k trades replayed and nothing resting. */
  ghost predicate Idle(trades: seq<FillRecord>, feeBps: int, sys: Sys<int>, k: nat) {
    CaughtUp(trades, feeBps, sys, k, k) && sys.venue.resting == []
  }

  /** The venue fills the resting market order at the bar's open, which is the trade's price. */
  lemma BarFillsTrade(trades: seq<FillRecord>, feeBps: int, v: Venue, k: nat)
    requires k < |trades| && trades[k].qty > 0 && v.resting == [OrderAt(trades, k)] && v.cash == None
    ensures var cfg, t := VenueFor(trades, feeBps), trades[k];
            var bar := FlatBar(t.instrument, t.ts, t.price, t.qty);
            var (w, events) := Observed(cfg, v, bar, t.ts);
            && w.resting == [] && w.cash == None
            && events == [Fill(k, t.instrument, t.side, t.price, t.qty, FeeCosts(cfg, t.instrument, t.price, t.qty), true, t.ts)]
  {
    var cfg, t, r := VenueFor(trades, feeBps), trades[k], OrderAt(trades, k);
    var bar := FlatBar(t.instrument, t.ts, t.price, t.qty);
    var marked := Marked(v, bar);
    var start := ScanStart(cfg, marked, bar);
    var f := Staged(k, t.instrument, t.side, t.price, t.qty, true);
    var d := Decision(false, None, None, Some(f), t.qty, false);
    assert Decide(cfg, bar, t.ts, start, r) == d;
    ScanSingle(cfg, bar, t.ts, r, start);
    SettleSingle(cfg, marked.(resting := []), f, t.ts);
    hide ScanOrders, SettleFills, Decide, ApplyShadow, FeeCosts;
    var s := ScanBar(cfg, marked, bar, t.ts);
    assert s == Advance(start, r, d, t.ts);
    assert s.kept == [] && s.staged == [f] && s.claims == [] && s.events == [];
  }

  lemma FeeIsBps(trades: seq<FillRecord>, feeBps: int, k: nat)
    requires k < |trades|
    ensures var cfg, t := VenueFor(trades, feeBps), trades[k];
            Total(FeeCosts(cfg, t.instrument, t.price, t.qty)) == MulBps(t.price * t.qty, feeBps)
  {
    var cfg, t := VenueFor(trades, feeBps), trades[k];
    assert t in trades;
    var fee := MulBps(t.price * t.qty, feeBps);
    var costs := FeeCosts(cfg, t.instrument, t.price, t.qty);
    if feeBps != 0 {
      assert costs == [fee] && [fee][..0] == [];
    } else {
      assert costs == [] && t.price * t.qty * 0 == 0;
    }
  }

  lemma AppliedFill(trades: seq<FillRecord>, feeBps: int, a: Account, k: nat)
    requires k < |trades| && a.fills == Replayed(trades, feeBps)[..k] && Booked(a, CatalogueSize(trades))
    ensures var cfg, t := VenueFor(trades, feeBps), trades[k];
            var e := Fill(k, t.instrument, t.side, t.price, t.qty, FeeCosts(cfg, t.instrument, t.price, t.qty), true, t.ts);
            Applied(a, e).fills == Replayed(trades, feeBps)[..k + 1] && Booked(Applied(a, e), CatalogueSize(trades))
  {
    FeeIsBps(trades, feeBps, k);
    var cfg, t := VenueFor(trades, feeBps), trades[k];
    assert t in trades;
    BookedStep(a, CatalogueSize(trades), Fill(k, t.instrument, t.side, t.price, t.qty, FeeCosts(cfg, t.instrument, t.price, t.qty), true, t.ts));
    hide MulBps, FeeCosts, Total, NextPosition, RealizedBy, Booked;
    PrefixStep(Replayed(trades, feeBps), k);
  }

  /** The bar that carries trade k fills it, and the drain books it. */
  lemma FillStep(trades: seq<FillRecord>, feeBps: int, sys: Sys<int>, k: nat)
    requires k < |trades| && trades[k].qty > 0 && Waiting(trades, feeBps, sys, k)
    ensures var t := trades[k];
            var cfg, bar := VenueFor(trades, feeBps), FlatBar(t.instrument, t.ts, t.price, t.qty);
            var sys' := Drained(cfg, StrategyOf(trades), Executed(cfg, sys, Observe(bar, t.ts)), t.ts);
            sys'.Some? && sys'.value.venue.resting == [] && CaughtUp(trades, feeBps, sys'.value, k + 1, k + 1)
  {
    var cfg, t := VenueFor(trades, feeBps), trades[k];
    var bar := FlatBar(t.instrument, t.ts, t.price, t.qty);
    BarFillsTrade(trades, feeBps, sys.venue, k);
    AppliedFill(trades, feeBps, sys.account, k);
    hide Observed, Applied, VenueFor, Drained, FeeCosts, StrategyOf, Replayed, Booked;
    var executed := Executed(cfg, sys, Observe(bar, t.ts));
    var e := Fill(k, t.instrument, t.side, t.price, t.qty, FeeCosts(cfg, t.instrument, t.price, t.qty), true, t.ts);
    assert executed.sink == [e];
    DrainOne(cfg, trades, executed, e, t.ts);
  }

  /** The lead-in bar meets an empty book. */
  lemma LeadIn(trades: seq<FillRecord>, feeBps: int, sys: Sys<int>, bar: Bar)
    requires Idle(trades, feeBps, sys, 0)
    ensures var cfg := VenueFor(trades, feeBps);
            var sys' := Drained(cfg, StrategyOf(trades), Executed(cfg, sys, Observe(bar, bar.ts)), bar.ts);
            sys'.Some? && Idle(trades, feeBps, sys'.value, 0)
  {
    var cfg := VenueFor(trades, feeBps);
    var executed := Executed(cfg, sys, Observe(bar, bar.ts));
    assert executed.sink == [];
    NothingToDrain(cfg, trades, executed, bar.ts);
    hide Drained, StrategyOf, Replayed;
  }

  /** The callback on the bar sends the next order, which the venue accepts. */
  lemma SubmitNext(trades: seq<FillRecord>, feeBps: int, v: Venue, k: nat, now: int)
    requires k < |trades| && trades[k].qty > 0 && v.resting == [] && v.cash == None
    ensures var (w, events) := Submitted(VenueFor(trades, feeBps), v, k, OrderAt(trades, k).order, now);
            w == v.(resting := [OrderAt(trades, k)]) && events == [OrderAccepted(k, now)]
  {
    assert trades[k] in trades;
  }

  /** The strategy's reaction to a bar: buffer the next order under the next id. */
  lemma CallNext(trades: seq<FillRecord>, sys: Sys<int>, k: nat, bar: Bar)
    requires k < |trades| && sys.mind == k && sys.gate == Gate(k, [], [])
    ensures Called(StrategyOf(trades), sys, OnBar(bar), bar.ts)
            == sys.(mind := k + 1, gate := Gate(k + 1, [Place(k, OrderAt(trades, k).order)], []))
  {
    var actions := [SubmitOrder(OrderAt(trades, k).order)];
    assert actions[..0] == [];
    assert BufferedAll(sys.gate, actions[..0]) == sys.gate;
    assert BufferedAll(sys.gate, actions) == Buffered(sys.gate, actions[0]);
    assert [] + [Place(k, OrderAt(trades, k).order)] == [Place(k, OrderAt(trades, k).order)];
  }

  lemma RouteOne(cfg: Config, sys: Sys<int>, place: GateAction, now: int)
    requires sys.gate.pending == [place]
    ensures Routed(cfg, sys, now) == Executed(cfg, sys.(gate := sys.gate.(pending := [])), AsOp(place, now))
  {
    hide Executed;
    var quiet := sys.(gate := sys.gate.(pending := []));
    assert [place][..0] == [];
    assert RoutedAll(cfg, quiet, [], now) == quiet;
  }

  lemma RouteNext(trades: seq<FillRecord>, feeBps: int, sys: Sys<int>, k: nat, now: int)
    requires k < |trades| && trades[k].qty > 0 && sys.venue.resting == [] && CaughtUp(trades, feeBps, sys.(gate := Gate(k + 1, [], [])), k, k + 1)
    requires sys.gate == Gate(k + 1, [Place(k, OrderAt(trades, k).order)], [])
    ensures var sys' := RouteAndDrain(VenueFor(trades, feeBps), StrategyOf(trades), sys, now);
            sys'.Some? && Waiting(trades, feeBps, sys'.value, k)
  {
    var cfg := VenueFor(trades, feeBps);
    RouteOne(cfg, sys, Place(k, OrderAt(trades, k).order), now);
    SubmitNext(trades, feeBps, sys.venue, k, now);
    hide StrategyOf, VenueFor, Submitted, Replayed, Drained, Routed, Booked;
    var routed := Routed(cfg, sys, now);
    assert routed.sink == [OrderAccepted(k, now)];
    BookedStep(sys.account, CatalogueSize(trades), OrderAccepted(k, now));
    DrainOne(cfg, trades, routed, OrderAccepted(k, now), now);
  }

  /** With no timer due, a bar's second half is the callback, the routing and the drain. */
  lemma DecidedPlainly(cfg: Config, trades: seq<FillRecord>, sys: Sys<int>, bar: Bar, called: Sys<int>)
    requires sys.gate.timers == []
    requires called == Called(StrategyOf(trades), sys.(market := Pushed(sys.market, bar)), OnBar(bar), bar.ts)
    ensures Decided(cfg, StrategyOf(trades), sys, bar)
            == match RouteAndDrain(cfg, StrategyOf(trades), called.(bars := called.bars + 1), bar.ts)
               case None => None
               case Some(done) => Some(Sampled(done, bar.ts))
  {
    hide StrategyOf, Pushed, Called, RouteAndDrain, Sampled, TimersFired;
    NoTimers(trades, sys.(market := Pushed(sys.market, bar)), bar.ts);
  }

  lemma DecideStep(trades: seq<FillRecord>, feeBps: int, sys: Sys<int>, k: nat, bar: Bar)
    requires Idle(trades, feeBps, sys, k) && (k < |trades| ==> trades[k].qty > 0)
    ensures var sys' := Decided(VenueFor(trades, feeBps), StrategyOf(trades), sys, bar);
            sys'.Some? && Waiting(trades, feeBps, sys'.value, k)
  {
    hide StrategyOf, VenueFor, Replayed, Pushed, Called, RouteAndDrain, MarksOf, Equity, Decided, CatalogueSize;
    var cfg, strategy := VenueFor(trades, feeBps), StrategyOf(trades);
    var pushed := sys.(market := Pushed(sys.market, bar));
    var called := Called(strategy, pushed, OnBar(bar), bar.ts);
    DecidedPlainly(cfg, trades, sys, bar, called);
    var counted := called.(bars := called.bars + 1);
    if k < |trades| {
      CallNext(trades, pushed, k, bar);
      RouteNext(trades, feeBps, counted, k, bar.ts);
    } else {
      QuietCallback(trades, pushed, OnBar(bar), bar.ts);
      RouteNothing(cfg, trades, counted, bar.ts);
    }
  }

  lemma RouteNothing(cfg: Config, trades: seq<FillRecord>, sys: Sys<int>, now: int)
    requires sys.gate.pending == [] && sys.sink == []
    ensures RouteAndDrain(cfg, StrategyOf(trades), sys, now) == Some(sys)
  {
    hide StrategyOf, Routed, Drained;
    NothingToRoute(cfg, sys, now);
    NothingToDrain(cfg, trades, sys, now);
  }

  // ---------------------------------------------------------------- the whole replay

  lemma StartIdle(trades: seq<FillRecord>, feeBps: int)
    ensures var sys := Started(VenueFor(trades, feeBps), StrategyOf(trades), 0, None);
            sys.Some? && Idle(trades, feeBps, sys.value, 0)
  {
    var cfg := VenueFor(trades, feeBps);
    var blank := Fresh(cfg, StrategyOf(trades), 0, None);
    QuietCallback(trades, blank, OnStart, 0);
    RouteNothing(cfg, trades, blank, 0);
  }

  /** A bar's first half: the lead-in finds nothing to fill, and each later bar fills the trade before. */
  lemma BarFilled(trades: seq<FillRecord>, feeBps: int, sys: Sys<int>, j: nat)
    requires j <= |trades| && trades != [] && (forall t :: t in trades ==> t.qty > 0)
    requires if j == 0 then Idle(trades, feeBps, sys, 0) else Waiting(trades, feeBps, sys, j - 1)
    ensures FeedOf(trades)[j].BarEvent?
    ensures var bar, cfg := FeedOf(trades)[j].bar, VenueFor(trades, feeBps);
            var filled := Drained(cfg, StrategyOf(trades), Executed(cfg, sys, Observe(bar, bar.ts)), bar.ts);
            filled.Some? && Idle(trades, feeBps, filled.value, j)
  {
    hide Drained, Executed, VenueFor, StrategyOf, CaughtUp, Waiting, Replayed;
    if j == 0 {
      LeadIn(trades, feeBps, sys, FeedOf(trades)[j].bar);
    } else {
      FillStep(trades, feeBps, sys, j - 1);
    }
  }

  lemma BarStep(trades: seq<FillRecord>, feeBps: int, sys: Sys<int>, j: nat)
    requires j <= |trades| && trades != [] && (forall t :: t in trades ==> t.qty > 0)
    requires if j == 0 then Idle(trades, feeBps, sys, 0) else Waiting(trades, feeBps, sys, j - 1)
    ensures var sys' := Stepped(VenueFor(trades, feeBps), StrategyOf(trades), sys, FeedOf(trades)[j]);
            sys'.Some? && Waiting(trades, feeBps, sys'.value, j)
  {
    hide Drained, Executed, Decided, VenueFor, StrategyOf, CaughtUp, Idle, Waiting, Replayed, FeedOf;
    FeedCount(trades);
    BarFilled(trades, feeBps, sys, j);
    var cfg, bar := VenueFor(trades, feeBps), FeedOf(trades)[j].bar;
    var filled := Drained(cfg, StrategyOf(trades), Executed(cfg, sys, Observe(bar, bar.ts)), bar.ts).value;
    DecideStep(trades, feeBps, filled, j, bar);
  }

  lemma {:induction false} FeedReplays(trades: seq<FillRecord>, feeBps: int, j: nat)
    requires j <= |FeedOf(trades)| && (forall t :: t in trades ==> t.qty > 0)
    ensures var sys := Ran(VenueFor(trades, feeBps), StrategyOf(trades), 0, None, FeedOf(trades)[..j]);
            sys.Some? && if j == 0 then Idle(trades, feeBps, sys.value, 0) else Waiting(trades, feeBps, sys.value, j - 1)
  {
    hide Started, Stepped, Waiting, Idle, VenueFor, StrategyOf;
    if j == 0 {
      StartIdle(trades, feeBps);
    } else {
      FeedReplays(trades, feeBps, j - 1);
      PrefixStep(FeedOf(trades), j - 1);
      BarStep(trades, feeBps, Ran(VenueFor(trades, feeBps), StrategyOf(trades), 0, None, FeedOf(trades)[..j - 1]).value, j - 1);
    }
  }

  lemma StopChangesNothing(trades: seq<FillRecord>, feeBps: int, sys: Sys<int>, now: int)
    requires Idle(trades, feeBps, sys, |trades|)
    ensures Stopped(VenueFor(trades, feeBps), StrategyOf(trades), sys, now) == Some(sys)
  {
    NoTimers(trades, sys, now);
    QuietCallback(trades, sys, OnStop, now);
    RouteNothing(VenueFor(trades, feeBps), trades, sys, now);
    hide TimersFired, Called, RouteAndDrain;
  }

  lemma SortedTradesKeep(fills: seq<FillRecord>)
    ensures |SortedTrades(fills)| == |fills| && forall f :: f in SortedTrades(fills) <==> f in fills
  {
    SortIsPermutation(fills, Earlier);
    forall f ensures f in SortedTrades(fills) <==> f in fills {
      assert f in SortedTrades(fills) <==> f in multiset(SortedTrades(fills));
      assert f in fills <==> f in multiset(fills);
    }
  }

  lemma FeedCount(trades: seq<FillRecord>)
    ensures |FeedOf(trades)| == if trades == [] then 0 else |trades| + 1
    ensures FeedOf(trades)[..|FeedOf(trades)|] == FeedOf(trades)
  {
  }

  lemma LastIsIdle(trades: seq<FillRecord>, feeBps: int, sys: Sys<int>)
    requires if trades == [] then Idle(trades, feeBps, sys, 0) else Waiting(trades, feeBps, sys, |trades|)
    ensures Idle(trades, feeBps, sys, |trades|)
  {
  }

  lemma IdleIsDone(trades: seq<FillRecord>, feeBps: int, sys: Sys<int>)
    requires Idle(trades, feeBps, sys, |trades|)
    ensures sys.account.fills == Replayed(trades, feeBps) && sys.venue.resting == [] && Booked(sys.account, CatalogueSize(trades))
  {
    hide Booked, CatalogueSize;
    assert Replayed(trades, feeBps)[..|trades|] == Replayed(trades, feeBps);
  }

  /**
   * Replay reproduces: for any saved fills of positive quantity the run completes, and its fills
   * are the sorted trades, each at its own instrument, side, price, quantity and time, with the
   * fee recomputed at the replay's rate; nothing is left resting.
   */
  lemma ReplayReproduces(fills: seq<FillRecord>, feeBps: int)
    requires forall f :: f in fills ==> f.qty > 0
    ensures var sys := ReplayTrades(fills, feeBps);
            && sys.Some?
            && sys.value.account.fills == Replayed(SortedTrades(fills), feeBps)
            && sys.value.venue.resting == []
            && Booked(sys.value.account, CatalogueSize(SortedTrades(fills)))
  {
    hide SortedTrades, Ran, Stopped, FeedOf, VenueFor, StrategyOf, Booked, Replayed, Idle, Waiting, CatalogueSize;
    var trades := SortedTrades(fills);
    SortedTradesKeep(fills);
    var feed := FeedOf(trades);
    FeedCount(trades);
    FeedReplays(trades, feeBps, |feed|);
    var ran := Ran(VenueFor(trades, feeBps), StrategyOf(trades), 0, None, feed).value;
    LastIsIdle(trades, feeBps, ran);
    IdleIsDone(trades, feeBps, ran);
    StopChangesNothing(trades, feeBps, ran, if feed == [] then 0 else feed[|feed| - 1].Ts());
  }

  lemma EarlierIsKeyOrder()
    ensures KeyOrder(Earlier)
  {
  }

  lemma ReplayedStaysSorted(fills: seq<FillRecord>, feeBps: int)
    ensures var again := Replayed(SortedTrades(fills), feeBps); SortedTrades(again) == again
  {
    EarlierIsKeyOrder();
    SortSorts(fills, Earlier);
    SortedIsFixed(Replayed(SortedTrades(fills), feeBps), Earlier);
  }

  /** Replaying a replay changes nothing. */
  lemma ReplayIsIdempotent(fills: seq<FillRecord>, feeBps: int)
    requires forall f :: f in fills ==> f.qty > 0
    ensures var once := ReplayTrades(fills, feeBps);
            once.Some? && var twice := ReplayTrades(once.value.account.fills, feeBps);
            twice.Some? && twice.value.account.fills == once.value.account.fills
  {
    hide ReplayTrades, SortedTrades, Booked;
    ReplayReproduces(fills, feeBps);
    SortedTradesKeep(fills);
    var again := Replayed(SortedTrades(fills), feeBps);
    ReplayedStaysSorted(fills, feeBps);
    forall f | f in again ensures f.qty > 0 {
      var k :| 0 <= k < |again| && again[k] == f;
      assert SortedTrades(fills)[k] in SortedTrades(fills);
    }
    ReplayReproduces(again, feeBps);
  }
}
