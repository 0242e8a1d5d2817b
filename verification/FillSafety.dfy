/**
 * What one bar may do, for any resting list: reduce-only orders only shrink the position and never
 * cross zero, all fills together stay within the bar's volume share, and a passive order never
 * fills worse than its limit.
 */
module FillSafety {
  import opened Prelude
  import opened Trading
  import opened Exchange
  import opened Lifecycle

  // ---------------------------------------------------------------- prices

  predicate WellFormedBar(bar: Bar) {
    bar.low <= bar.open <= bar.high
  }

  /** Prices an order fills at before slippage, relative to its own terms and to the bar. */
  lemma FillPriceBounds(r: Resting, bar: Bar)
    requires WellFormedBar(bar) && Evaluate(r, bar).1.FillAt?
    ensures var p := Evaluate(r, bar).1.price;
            var kind, buy := r.order.kind, r.order.side.Buy?;
            && (kind.Passive() ==> if buy then p <= kind.limit else p >= kind.limit)
            && (kind.Market? ==> p == bar.open)
            && (kind.Market? || kind.Limit? || kind.Stop? ==> bar.low <= p <= bar.high)
            && (kind.Stop? ==> if buy then p >= bar.open && p >= kind.trigger else p <= bar.open && p <= kind.trigger)
  {
    hide TrailOffset;
  }

  // ---------------------------------------------------------------- sizes

  /** A staged fill fits the bar's remaining volume share and what the position leaves to reduce. */
  lemma FillFits(cfg: Config, bar: Bar, now: int, s: Scan, r: Resting, base: int, triggered: bool, drew: bool)
    ensures var d := DecideFill(cfg, bar, now, s, r, base, triggered, drew);
            d.staged.Some? ==>
              && 0 < d.staged.value.qty
              && d.staged.value.id == r.id && d.staged.value.side == r.order.side
              && (s.cap.Some? ==> d.staged.value.qty <= s.cap.value)
              && (r.order.reduceOnly ==> d.staged.value.qty <= Reducible(s.net, r.order.side))
  {
    hide FillPrice;
  }

  lemma DecisionFits(cfg: Config, bar: Bar, now: int, s: Scan, r: Resting)
    ensures var d := Decide(cfg, bar, now, s, r);
            d.staged.Some? ==>
              && 0 < d.staged.value.qty
              && d.staged.value.id == r.id && d.staged.value.side == r.order.side
              && (s.cap.Some? ==> d.staged.value.qty <= s.cap.value)
              && (r.order.reduceOnly ==> d.staged.value.qty <= Reducible(s.net, r.order.side))
  {
    hide Evaluate, DecideFill, Reducible;
    var (e, outcome) := Evaluate(r, bar);
    EvaluateKeeps(r, bar);
    if outcome.FillAt? {
      var fired := Fire(e);
      FillFits(cfg, bar, now, s, fired, outcome.price, !r.armed && fired.armed, TouchIsUncertain(cfg, r.order, bar));
    }
  }

  function QtyOf(): Staged -> int {
    (f: Staged) => f.qty
  }

  function SignedOf(): Staged -> int {
    (f: Staged) => f.side.Sign() * f.qty
  }

  /** Ids of the reduce-only orders in a resting list. */
  function ReduceOnlyIds(resting: seq<Resting>): set<nat> {
    set r | r in resting && r.order.reduceOnly :: r.id
  }

  /** In staging order, every fill of a reduce-only order is opposite to the position and no larger. */
  ghost predicate OnlyReduces(ids: set<nat>, net: int, staged: seq<Staged>) {
    forall k: nat :: k < |staged| ==> ReducesAt(ids, net, staged, k)
  }

  ghost predicate ReducesAt(ids: set<nat>, net: int, staged: seq<Staged>, k: nat)
    requires k < |staged|
  {
    staged[k].id in ids ==> staged[k].qty <= Reducible(net + Tally(staged[..k], SignedOf()), staged[k].side)
  }

  lemma OnlyReducesPush(ids: set<nat>, net: int, staged: seq<Staged>, f: Staged)
    requires OnlyReduces(ids, net, staged)
    requires f.id in ids ==> f.qty <= Reducible(net + Tally(staged, SignedOf()), f.side)
    ensures OnlyReduces(ids, net, staged + [f])
  {
    hide Reducible, Tally;
    var more := staged + [f];
    forall k: nat | k < |more| ensures ReducesAt(ids, net, more, k) {
      if k < |staged| {
        assert more[..k] == staged[..k] && ReducesAt(ids, net, staged, k);
      } else {
        assert more[..k] == staged;
      }
    }
  }

  ghost predicate Fits(start: Scan, ids: set<nat>, s: Scan) {
    && s.net == start.net + Tally(s.staged, SignedOf())
    && (start.cap.Some? ==> s.cap.Some? && s.cap.value == start.cap.value - Tally(s.staged, QtyOf())
                            && Tally(s.staged, QtyOf()) <= Max(start.cap.value, 0))
    && OnlyReduces(ids, start.net, s.staged)
  }

  lemma ScanFitsStep(cfg: Config, bar: Bar, now: int, start: Scan, ids: set<nat>, s: Scan, r: Resting)
    requires Fits(start, ids, s) && (r.id in ids ==> r.order.reduceOnly)
    ensures Fits(start, ids, Advance(s, r, Decide(cfg, bar, now, s, r), now))
  {
    hide Decide, Reducible, Tally, OnlyReduces;
    var d := Decide(cfg, bar, now, s, r);
    DecisionFits(cfg, bar, now, s, r);
    TallyListed(s.staged, d.staged, SignedOf());
    TallyListed(s.staged, d.staged, QtyOf());
    if d.staged.Some? {
      OnlyReducesPush(ids, start.net, s.staged, d.staged.value);
    } else {
      assert s.staged + Listed(d.staged) == s.staged;
    }
  }

  lemma {:induction false} ScanFits(cfg: Config, bar: Bar, now: int, pending: seq<Resting>, start: Scan, ids: set<nat>)
    requires start.staged == []
    requires forall r :: r in pending && r.id in ids ==> r.order.reduceOnly
    ensures Fits(start, ids, ScanOrders(cfg, bar, now, pending, start))
  {
    if pending != [] {
      hide Decide, Advance, Fits;
      var init, r := pending[..|pending| - 1], pending[|pending| - 1];
      assert pending == init + [r];
      ScanFits(cfg, bar, now, init, start, ids);
      ScanFitsStep(cfg, bar, now, start, ids, ScanOrders(cfg, bar, now, init, start), r);
    }
  }

  // ---------------------------------------------------------------- as emitted

  function EmittedQty(): AccountEvent -> int {
    (e: AccountEvent) => if e.Fill? then e.qty else 0
  }

  /** The position at the moment a fill is emitted is the one its size was checked against. */
  lemma {:induction false} SettlingTracksNet(cfg: Config, v: Venue, staged: seq<Staged>, now: int, instrument: nat)
    requires forall f :: f in staged ==> f.instrument == instrument
    ensures var (w, events) := SettleFills(cfg, v, staged, now);
            && ShadowOf(w.shadows, instrument).net == ShadowOf(v.shadows, instrument).net + Tally(staged, SignedOf())
            && Tally(events, EmittedQty()) == Tally(staged, QtyOf())
  {
    if staged != [] {
      hide FeeCosts, SettledCash, AverageCost.AverageEntry;
      var init, f := staged[..|staged| - 1], staged[|staged| - 1];
      assert staged == init + [f];
      SettlingTracksNet(cfg, v, init, now, instrument);
      TallyPush(init, f, SignedOf());
      TallyPush(init, f, QtyOf());
      TallyPush(SettleFills(cfg, v, init, now).1, FillEvent(cfg, f, now), EmittedQty());
    }
  }

  lemma {:induction false} QuietEventsEmitNothing(events: seq<AccountEvent>)
    requires forall e :: e in events ==> !e.Fill?
    ensures Tally(events, EmittedQty()) == 0
  {
    if events != [] {
      assert events == events[..|events| - 1] + [events[|events| - 1]];
      QuietEventsEmitNothing(events[..|events| - 1]);
    }
  }

  /** The fills of a bar, all orders together, never exceed the configured share of its volume. */
  lemma BarStaysWithinVolumeShare(cfg: Config, v: Venue, bar: Bar, now: int, bps: int)
    requires cfg.participationBps == Some(bps) && Ascending(v.resting) && AllSound(cfg, v.resting)
    ensures Tally(Observed(cfg, v, bar, now).1, EmittedQty()) <= Max(TruncDiv(bar.volume * bps, 10_000), 0)
  {
    hide Observed, ScanOrders, SettleFills, TruncDiv;
    var marked := Marked(v, bar);
    var s, fills, rest := ObservedParts(cfg, v, bar, now);
    ScanFits(cfg, bar, now, v.resting, ScanStart(cfg, marked, bar), {});
    StagedArePositive(cfg, bar, now, v.resting, ScanStart(cfg, marked, bar));
    SettlingTracksNet(cfg, marked.(resting := s.kept, drawn := s.drawn), s.staged, now, bar.instrument);
    ScanEmitsNothing(cfg, v, bar, now);
    QuietEventsEmitNothing(s.events);
    QuietEventsEmitNothing(rest);
    TallyConcat(s.events + fills, rest, EmittedQty());
    TallyConcat(s.events, fills, EmittedQty());
  }

  lemma ScanEmitsNothing(cfg: Config, v: Venue, bar: Bar, now: int)
    requires Ascending(v.resting) && AllSound(cfg, v.resting)
    ensures forall e :: e in ScanBar(cfg, Marked(v, bar), bar, now).events ==> !e.Fill?
  {
    ScanObeysLaw(cfg, bar, now, v.resting, ScanStart(cfg, Marked(v, bar), bar));
  }

  /**
   * Reduce-only safety: when the k-th fill of a bar belongs to a reduce-only order, the position it
   * meets is open on the other side and at least as large, so the fill moves it toward zero and
   * never past zero.
   */
  lemma ReduceOnlyFillsOnlyReduce(cfg: Config, v: Venue, bar: Bar, now: int, k: nat)
    requires Ascending(v.resting) && AllSound(cfg, v.resting)
    requires var s := ScanBar(cfg, Marked(v, bar), bar, now);
             k < |s.staged| && s.staged[k].id in ReduceOnlyIds(v.resting)
    ensures var s := ScanBar(cfg, Marked(v, bar), bar, now);
            var f := s.staged[k];
            var ready := Marked(v, bar).(resting := s.kept, drawn := s.drawn);
            var before := ShadowOf(SettleFills(cfg, ready, s.staged[..k], now).0.shadows, bar.instrument).net;
            var after := ShadowOf(SettleFills(cfg, ready, s.staged[..k + 1], now).0.shadows, bar.instrument).net;
            && after == before + f.side.Sign() * f.qty
            && (if before > 0 then 0 <= after < before else before < after <= 0)
  {
    hide ScanOrders, SettleFills;
    var marked := Marked(v, bar);
    var s := ScanBar(cfg, marked, bar, now);
    var ready := marked.(resting := s.kept, drawn := s.drawn);
    var ids := ReduceOnlyIds(v.resting);
    forall r | r in v.resting && r.id in ids ensures r.order.reduceOnly {
      SameIdSameOrder(v.resting, r);
    }
    ScanFits(cfg, bar, now, v.resting, ScanStart(cfg, marked, bar), ids);
    StagedArePositive(cfg, bar, now, v.resting, ScanStart(cfg, marked, bar));
    SettlingTracksNet(cfg, ready, s.staged[..k], now, bar.instrument);
    SettlingTracksNet(cfg, ready, s.staged[..k + 1], now, bar.instrument);
    PrefixStep(s.staged, k);
    TallyPush(s.staged[..k], s.staged[k], SignedOf());
    assert s.staged[k] in s.staged && ReducesAt(ids, ShadowOf(marked.shadows, bar.instrument).net, s.staged, k);
  }

  lemma SameIdSameOrder(resting: seq<Resting>, r: Resting)
    requires Ascending(resting) && r in resting && r.id in ReduceOnlyIds(resting)
    ensures r.order.reduceOnly
  {
    var q :| q in resting && q.order.reduceOnly && q.id == r.id;
    var i :| 0 <= i < |resting| && resting[i] == r;
    var j :| 0 <= j < |resting| && resting[j] == q;
  }
}
