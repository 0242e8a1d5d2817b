/**
 * Conservation of orders. Over every run of the venue, an accepted order is either resting
 * exactly once or has had exactly one terminal event; it triggers at most once, a conditional
 * order triggers before it fills, and no order fills more than its size.
 */
module Lifecycle {
  import opened Prelude
  import opened Trading
  import opened Exchange

  // ---------------------------------------------------------------- per-order tallies

  function One(b: bool): nat {
    if b then 1 else 0
  }

  function AcceptOf(id: nat): AccountEvent -> int {
    (e: AccountEvent) => One(e.OrderAccepted? && e.id == id)
  }

  function TerminalOf(id: nat): AccountEvent -> int {
    (e: AccountEvent) => One(e.Terminal() && e.id == id)
  }

  function TriggerOf(id: nat): AccountEvent -> int {
    (e: AccountEvent) => One(e.OrderTriggered? && e.id == id)
  }

  function FillOf(id: nat): AccountEvent -> int {
    (e: AccountEvent) => if e.Fill? && e.id == id then e.qty else 0
  }

  function RestOf(id: nat): Resting -> int {
    (r: Resting) => One(r.id == id)
  }

  function CompleteOf(id: nat): Staged -> int {
    (f: Staged) => One(f.complete && f.id == id)
  }

  function StagedOf(id: nat): Staged -> int {
    (f: Staged) => if f.id == id then f.qty else 0
  }

  function Accepts(log: seq<AccountEvent>, id: nat): int { Tally(log, AcceptOf(id)) }
  function Terminals(log: seq<AccountEvent>, id: nat): int { Tally(log, TerminalOf(id)) }
  function Triggers(log: seq<AccountEvent>, id: nat): int { Tally(log, TriggerOf(id)) }
  function Filled(log: seq<AccountEvent>, id: nat): int { Tally(log, FillOf(id)) }
  function Rests(resting: seq<Resting>, id: nat): int { Tally(resting, RestOf(id)) }
  function Completes(staged: seq<Staged>, id: nat): int { Tally(staged, CompleteOf(id)) }
  function StagedQty(staged: seq<Staged>, id: nat): int { Tally(staged, StagedOf(id)) }

  lemma LogConcat(a: seq<AccountEvent>, b: seq<AccountEvent>, id: nat)
    ensures Accepts(a + b, id) == Accepts(a, id) + Accepts(b, id)
    ensures Terminals(a + b, id) == Terminals(a, id) + Terminals(b, id)
    ensures Triggers(a + b, id) == Triggers(a, id) + Triggers(b, id)
    ensures Filled(a + b, id) == Filled(a, id) + Filled(b, id)
  {
    TallyConcat(a, b, AcceptOf(id));
    TallyConcat(a, b, TerminalOf(id));
    TallyConcat(a, b, TriggerOf(id));
    TallyConcat(a, b, FillOf(id));
  }

  lemma ShortLogs(e: AccountEvent, f: AccountEvent, id: nat)
    ensures Accepts([], id) == Terminals([], id) == Triggers([], id) == Filled([], id) == 0
    ensures Accepts([e], id) == AcceptOf(id)(e) && Terminals([e], id) == TerminalOf(id)(e)
    ensures Triggers([e], id) == TriggerOf(id)(e) && Filled([e], id) == FillOf(id)(e)
    ensures Accepts([e, f], id) == AcceptOf(id)(e) + AcceptOf(id)(f)
    ensures Terminals([e, f], id) == TerminalOf(id)(e) + TerminalOf(id)(f)
    ensures Triggers([e, f], id) == TriggerOf(id)(e) + TriggerOf(id)(f)
    ensures Filled([e, f], id) == FillOf(id)(e) + FillOf(id)(f)
  {
    assert [e, f] == [e] + [f];
    LogConcat([e], [f], id);
    assert [e] == [] + [e];
    assert [f] == [] + [f];
    LogConcat([], [e], id);
    LogConcat([], [f], id);
  }

  // ---------------------------------------------------------------- invariants of the resting list

  ghost predicate Ascending(resting: seq<Resting>) {
    forall i, j :: 0 <= i < j < |resting| ==> resting[i].id < resting[j].id
  }

  ghost predicate Below(resting: seq<Resting>, bound: nat) {
    forall r :: r in resting ==> r.id < bound
  }

  predicate Sound(cfg: Config, r: Resting) {
    && r.order.instrument < |cfg.specs|
    && 0 <= r.filled < r.order.qty
    && (r.armed ==> r.order.kind.Conditional())
  }

  ghost predicate AllSound(cfg: Config, resting: seq<Resting>) {
    forall r :: r in resting ==> Sound(cfg, r)
  }

  lemma {:induction false} RestsAtMostOnce(resting: seq<Resting>, id: nat)
    requires Ascending(resting)
    ensures 0 <= Rests(resting, id) <= 1
    ensures Rests(resting, id) == 1 <==> exists r :: r in resting && r.id == id
  {
    if resting != [] {
      var init, last := resting[..|resting| - 1], resting[|resting| - 1];
      assert resting == init + [last];
      RestsAtMostOnce(init, id);
    }
  }

  // ---------------------------------------------------------------- one decision

  lemma FillFate(cfg: Config, bar: Bar, now: int, s: Scan, r: Resting, base: int, triggered: bool, drew: bool)
    requires 0 <= r.filled < r.order.qty
    ensures Fate(r, triggered, DecideFill(cfg, bar, now, s, r, base, triggered, drew))
  {
  }

  /**
   * What one decision does to order r, given whether it triggers: exactly one fate (kept, ended
   * now, or ended by the completing fill staged for it) and at most the remaining size filled.
   */
  predicate Fate(r: Resting, triggered: bool, d: Decision) {
    && d.triggered == triggered
    && One(d.kept.Some?) + One(d.ended.Some?) + One(d.staged.Some? && d.staged.value.complete) == 1
    && (d.ended.Some? ==> (d.ended.value.OrderCanceled? || d.ended.value.OrderExpired?) && d.ended.value.id == r.id)
    && (d.staged.Some? ==> d.staged.value.id == r.id && d.staged.value.instrument == r.order.instrument
                           && d.staged.value.side == r.order.side && d.staged.value.qty > 0)
    && d.filled == r.filled + (if d.staged.Some? then d.staged.value.qty else 0) <= r.order.qty
    && (d.kept.Some? ==> d.kept.value.id == r.id && d.kept.value.order == r.order
                         && r.filled <= d.kept.value.filled == d.filled < r.order.qty
                         && (r.armed ==> d.kept.value.armed))
  }

  /** The armed flag is the "already triggered" flag, and a conditional order fills only once triggered. */
  predicate TriggerLaw(r: Resting, d: Decision) {
    && One(r.armed) + One(d.triggered) <= 1
    && (d.kept.Some? ==> One(d.kept.value.armed) == One(r.armed) + One(d.triggered))
    && (d.staged.Some? && r.order.kind.Conditional() ==> r.armed || d.triggered)
    && (d.triggered ==> r.order.kind.Conditional())
  }

  lemma DecisionWithoutFill(cfg: Config, bar: Bar, now: int, s: Scan, r: Resting)
    requires Sound(cfg, r)
    requires r.order.instrument != bar.instrument || r.activateIn > 0 || !Evaluate(r, bar).1.FillAt?
    ensures var d := Decide(cfg, bar, now, s, r);
            && Fate(r, d.triggered, d) && TriggerLaw(r, d)
            && (d.kept.Some? ==> Sound(cfg, d.kept.value)) && d.staged.None?
  {
    EvaluateKeeps(r, bar);
    hide Evaluate, DecideFill;
  }

  lemma DecisionToFill(cfg: Config, bar: Bar, now: int, s: Scan, r: Resting)
    requires Sound(cfg, r) && r.order.instrument == bar.instrument && r.activateIn == 0 && Evaluate(r, bar).1.FillAt?
    ensures var d := Decide(cfg, bar, now, s, r);
            Fate(r, d.triggered, d) && TriggerLaw(r, d) && (d.kept.Some? ==> Sound(cfg, d.kept.value))
  {
    var (e, outcome) := Evaluate(r, bar);
    var fired := Fire(e);
    EvaluateKeeps(r, bar);
    hide Evaluate, DecideFill;
    FillFate(cfg, bar, now, s, fired, outcome.price, !r.armed && fired.armed, TouchIsUncertain(cfg, r.order, bar));
    FillArming(cfg, bar, now, s, fired, outcome.price, !r.armed && fired.armed, TouchIsUncertain(cfg, r.order, bar));
    hide TouchIsUncertain;
  }

  lemma DecisionFate(cfg: Config, bar: Bar, now: int, s: Scan, r: Resting)
    requires Sound(cfg, r)
    ensures var d := Decide(cfg, bar, now, s, r);
            && Fate(r, d.triggered, d) && TriggerLaw(r, d)
            && (d.kept.Some? ==> Sound(cfg, d.kept.value))
            && (d.staged.Some? ==> r.order.instrument == bar.instrument)
  {
    hide Decide, Evaluate, TriggerLaw, Sound;
    if r.order.instrument == bar.instrument && r.activateIn == 0 && Evaluate(r, bar).1.FillAt? {
      DecisionToFill(cfg, bar, now, s, r);
    } else {
      DecisionWithoutFill(cfg, bar, now, s, r);
    }
  }

  lemma FillArming(cfg: Config, bar: Bar, now: int, s: Scan, r: Resting, base: int, triggered: bool, drew: bool)
    ensures var d := DecideFill(cfg, bar, now, s, r, base, triggered, drew);
            d.kept.Some? ==> d.kept.value.armed == r.armed
  {
  }

  lemma DecisionTallies(d: Decision, r: Resting, now: int, id: nat)
    requires d.ended.Some? ==> (d.ended.value.OrderCanceled? || d.ended.value.OrderExpired?) && d.ended.value.id == r.id
    ensures var e := d.Events(r.id, now);
            && Accepts(e, id) == 0 && Filled(e, id) == 0
            && Terminals(e, id) == One(d.ended.Some? && r.id == id)
            && Triggers(e, id) == One(d.triggered && r.id == id)
  {
    var t := OrderTriggered(r.id, now);
    var e := d.ended.GetOr(t);
    ShortLogs(t, t, id);
    ShortLogs(e, e, id);
    LogConcat(if d.triggered then [t] else [], if d.ended.Some? then [e] else [], id);
  }

  // ---------------------------------------------------------------- the pass over the resting list

  /** Neither a fill nor an acknowledgement of a submission. */
  predicate Quiet(e: AccountEvent) {
    !e.Fill? && !e.OrderAccepted? && !e.OrderRejected?
  }

  /** What the pass has done to each of the orders it has seen so far. */
  ghost predicate ScanLaw(cfg: Config, pending: seq<Resting>, s: Scan) {
    && Ascending(s.kept) && AllSound(cfg, s.kept)
    && (forall bound: nat :: Below(pending, bound) ==> Below(s.kept, bound))
    && (forall id: nat :: Rests(pending, id) == Rests(s.kept, id) + Terminals(s.events, id) + Completes(s.staged, id))
    && (forall e :: e in s.events ==> Quiet(e))
    && (forall id: nat :: Accepts(s.events, id) == 0 && Filled(s.events, id) == 0)
    && (forall id: nat :: Rests(pending, id) == 0 ==> Triggers(s.events, id) == 0 && StagedQty(s.staged, id) == 0)
    && (forall r :: r in pending ==> OrderLaw(r, s))
  }

  ghost predicate OrderLaw(r: Resting, s: Scan) {
    && 0 <= StagedQty(s.staged, r.id) <= r.order.qty - r.filled
    && 0 <= Triggers(s.events, r.id) && One(r.armed) + Triggers(s.events, r.id) <= 1
    && (StagedQty(s.staged, r.id) > 0 && r.order.kind.Conditional() ==> One(r.armed) + Triggers(s.events, r.id) == 1)
    && (forall k :: k in s.kept && k.id == r.id ==>
          && k.order == r.order
          && k.filled == r.filled + StagedQty(s.staged, r.id)
          && One(k.armed) == One(r.armed) + Triggers(s.events, r.id))
  }

  lemma AdvanceTallies(s: Scan, r: Resting, d: Decision, now: int, id: nat)
    requires d.ended.Some? ==> (d.ended.value.OrderCanceled? || d.ended.value.OrderExpired?) && d.ended.value.id == r.id
    ensures var t := Advance(s, r, d, now);
            && Rests(t.kept, id) == Rests(s.kept, id) + One(d.kept.Some? && d.kept.value.id == id)
            && Completes(t.staged, id) == Completes(s.staged, id) + (if d.staged.Some? then CompleteOf(id)(d.staged.value) else 0)
            && StagedQty(t.staged, id) == StagedQty(s.staged, id) + (if d.staged.Some? then StagedOf(id)(d.staged.value) else 0)
            && Terminals(t.events, id) == Terminals(s.events, id) + One(d.ended.Some? && r.id == id)
            && Triggers(t.events, id) == Triggers(s.events, id) + One(d.triggered && r.id == id)
            && Accepts(t.events, id) == Accepts(s.events, id)
            && Filled(t.events, id) == Filled(s.events, id)
  {
    TallyListed(s.kept, d.kept, RestOf(id));
    TallyListed(s.staged, d.staged, CompleteOf(id));
    TallyListed(s.staged, d.staged, StagedOf(id));
    DecisionTallies(d, r, now, id);
    LogConcat(s.events, d.Events(r.id, now), id);
  }

  lemma StepTallies(cfg: Config, bar: Bar, now: int, seen: seq<Resting>, r: Resting, s: Scan, id: nat)
    requires ScanLaw(cfg, seen, s) && Sound(cfg, r)
    ensures var t := Advance(s, r, Decide(cfg, bar, now, s, r), now);
            && Rests(seen + [r], id) == Rests(t.kept, id) + Terminals(t.events, id) + Completes(t.staged, id)
            && Accepts(t.events, id) == 0 && Filled(t.events, id) == 0
            && (Rests(seen + [r], id) == 0 ==> Triggers(t.events, id) == 0 && StagedQty(t.staged, id) == 0)
  {
    hide Decide, Tally, Advance;
    DecisionFate(cfg, bar, now, s, r);
    AdvanceTallies(s, r, Decide(cfg, bar, now, s, r), now, id);
    TallyPush(seen, r, RestOf(id));
    TallyNonNegative(seen, RestOf(id));
  }

  lemma StepOrderLaw(cfg: Config, bar: Bar, now: int, seen: seq<Resting>, r: Resting, s: Scan, q: Resting)
    requires ScanLaw(cfg, seen, s) && Sound(cfg, r) && Below(seen, r.id)
    requires q in seen || q == r
    ensures OrderLaw(q, Advance(s, r, Decide(cfg, bar, now, s, r), now))
  {
    hide Decide, Tally;
    var d := Decide(cfg, bar, now, s, r);
    DecisionFate(cfg, bar, now, s, r);
    AdvanceTallies(s, r, d, now, q.id);
    if q == r {
      RestsAtMostOnceBelow(seen, r.id);
      assert Below(s.kept, r.id);
    } else {
      assert OrderLaw(q, s);
    }
  }

  lemma ScanStep(cfg: Config, bar: Bar, now: int, seen: seq<Resting>, r: Resting, s: Scan)
    requires ScanLaw(cfg, seen, s)
    requires Ascending(seen + [r]) && Sound(cfg, r)
    ensures ScanLaw(cfg, seen + [r], Advance(s, r, Decide(cfg, bar, now, s, r), now))
  {
    hide Decide, OrderLaw, Tally;
    var pending := seen + [r];
    var t := Advance(s, r, Decide(cfg, bar, now, s, r), now);
    assert Below(seen, r.id) by {
      forall q | q in seen ensures q.id < r.id {
        var i :| 0 <= i < |seen| && seen[i] == q;
        assert pending[i] == q && pending[|seen|] == r;
      }
    }
    assert Below(s.kept, r.id);
    DecisionFate(cfg, bar, now, s, r);
    forall id: nat { StepTallies(cfg, bar, now, seen, r, s, id); }
    forall q | q in pending ensures OrderLaw(q, t) { StepOrderLaw(cfg, bar, now, seen, r, s, q); }
    forall bound: nat | Below(pending, bound) ensures Below(t.kept, bound) {
      assert r in pending;
      assert Below(seen, bound);
    }
  }

  lemma {:induction false} RestsAtMostOnceBelow(resting: seq<Resting>, id: nat)
    requires Below(resting, id)
    ensures Rests(resting, id) == 0
  {
    if resting != [] {
      assert resting == resting[..|resting| - 1] + [resting[|resting| - 1]];
      RestsAtMostOnceBelow(resting[..|resting| - 1], id);
    }
  }

  lemma AscendingPrefix(resting: seq<Resting>)
    requires Ascending(resting) && resting != []
    ensures Ascending(resting[..|resting| - 1])
    ensures resting == resting[..|resting| - 1] + [resting[|resting| - 1]]
    ensures Below(resting[..|resting| - 1], resting[|resting| - 1].id)
  {
    var init := resting[..|resting| - 1];
    forall q | q in init ensures q.id < resting[|resting| - 1].id {
      var i :| 0 <= i < |init| && init[i] == q;
      assert resting[i] == q;
    }
  }

  lemma {:induction false} ScanObeysLaw(cfg: Config, bar: Bar, now: int, pending: seq<Resting>, start: Scan)
    requires Ascending(pending) && AllSound(cfg, pending)
    requires start.kept == [] && start.events == [] && start.staged == []
    ensures ScanLaw(cfg, pending, ScanOrders(cfg, bar, now, pending, start))
  {
    if pending != [] {
      AscendingPrefix(pending);
      var init, last := pending[..|pending| - 1], pending[|pending| - 1];
      ScanObeysLaw(cfg, bar, now, init, start);
      assert last in pending;
      ScanStep(cfg, bar, now, init, last, ScanOrders(cfg, bar, now, init, start));
    }
  }

  // ---------------------------------------------------------------- the stages after the pass

  ghost predicate FillTallies(staged: seq<Staged>, fills: seq<AccountEvent>, id: nat) {
    && Accepts(fills, id) == 0 && Triggers(fills, id) == 0
    && Terminals(fills, id) == Completes(staged, id) && Filled(fills, id) == StagedQty(staged, id)
  }

  lemma {:induction false} FillsTallies(cfg: Config, v: Venue, staged: seq<Staged>, now: int, id: nat)
    ensures var (w, events) := SettleFills(cfg, v, staged, now);
            && w.resting == v.resting && w.drawn == v.drawn
            && FillTallies(staged, events, id)
  {
    if staged != [] {
      var init, f := staged[..|staged| - 1], staged[|staged| - 1];
      FillsTallies(cfg, v, init, now, id);
      var e := FillEvent(cfg, f, now);
      LogConcat(SettleFills(cfg, v, init, now).1, [e], id);
      ShortLogs(e, e, id);
    }
  }

  /** A stage that only cancels resting orders, or keeps them with more of their size accounted for. */
  ghost predicate PruneLaw(cfg: Config, before: seq<Resting>, after: seq<Resting>, events: seq<AccountEvent>) {
    && Ascending(after) && AllSound(cfg, after)
    && (forall bound: nat :: Below(before, bound) ==> Below(after, bound))
    && (forall e :: e in events ==> Quiet(e))
    && (forall id: nat :: PruneTallies(before, after, events, id))
    && (forall a, b :: a in after && b in before && a.id == b.id ==> a.order == b.order && a.armed == b.armed && a.filled >= b.filled)
  }

  ghost predicate PruneTallies(before: seq<Resting>, after: seq<Resting>, events: seq<AccountEvent>, id: nat) {
    && Rests(before, id) == Rests(after, id) + Terminals(events, id)
    && Accepts(events, id) == 0 && Triggers(events, id) == 0 && Filled(events, id) == 0
  }

  lemma PruneStepTallies(before: seq<Resting>, after: seq<Resting>, events: seq<AccountEvent>, r: Resting, leg: Option<Resting>, e: AccountEvent, id: nat)
    requires PruneTallies(before, after, events, id) && e.OrderCanceled? && e.id == r.id && (leg.Some? ==> leg.value.id == r.id)
    ensures leg.Some? ==> PruneTallies(before + [r], after + [leg.value], events, id)
    ensures leg.None? ==> PruneTallies(before + [r], after, events + [e], id)
  {
    TallyPush(before, r, RestOf(id));
    if leg.Some? { TallyPush(after, leg.value, RestOf(id)); }
    LogConcat(events, [e], id);
    ShortLogs(e, e, id);
    hide Tally;
  }

  /** Adding one more order to a pruned prefix: it either stays, grown, or is canceled. */
  lemma PruneStep(cfg: Config, before: seq<Resting>, after: seq<Resting>, events: seq<AccountEvent>, r: Resting, leg: Option<Resting>, e: AccountEvent)
    requires PruneLaw(cfg, before, after, events)
    requires Below(before, r.id) && e.OrderCanceled? && e.id == r.id
    requires leg.Some? ==> leg.value == r.(filled := leg.value.filled) && r.filled <= leg.value.filled && Sound(cfg, leg.value)
    ensures leg.Some? ==> PruneLaw(cfg, before + [r], after + [leg.value], events)
    ensures leg.None? ==> PruneLaw(cfg, before + [r], after, events + [e])
  {
    hide PruneTallies;
    assert Below(after, r.id);
    forall id: nat
      ensures leg.Some? ==> PruneTallies(before + [r], after + [leg.value], events, id)
      ensures leg.None? ==> PruneTallies(before + [r], after, events + [e], id)
    {
      PruneStepTallies(before, after, events, r, leg, e, id);
    }
    forall bound: nat | Below(before + [r], bound)
      ensures Below(after, bound)
      ensures leg.Some? ==> Below(after + [leg.value], bound)
    {
      assert r in before + [r];
      assert Below(before, bound);
    }
  }

  lemma {:induction false} ClaimPrunes(cfg: Config, resting: seq<Resting>, c: Claim, now: int)
    requires Ascending(resting) && AllSound(cfg, resting)
    ensures PruneLaw(cfg, resting, ResolveClaim(resting, c, now).0, ResolveClaim(resting, c, now).1)
  {
    if resting != [] {
      AscendingPrefix(resting);
      var init, r := resting[..|resting| - 1], resting[|resting| - 1];
      ClaimPrunes(cfg, init, c, now);
      assert r in resting;
      var (kept, events) := ResolveClaim(init, c, now);
      PruneStep(cfg, init, kept, events, r, ResolveLeg(r, c), OrderCanceled(r.id, OcoTriggered, now));
    }
  }

  /** Dropping an instrument keeps exactly the other orders, and cancels each of its own, once. */
  lemma {:induction false} DropPrunes(cfg: Config, resting: seq<Resting>, instrument: nat, now: int)
    requires Ascending(resting) && AllSound(cfg, resting)
    ensures var (kept, events) := DropInstrument(resting, instrument, now);
            && PruneLaw(cfg, resting, kept, events)
            && (forall r :: r in kept <==> r in resting && r.order.instrument != instrument)
            && (forall e :: e in events <==> exists r :: r in resting && r.order.instrument == instrument && e == OrderCanceled(r.id, VenueCanceled, now))
  {
    DroppedElements(resting, instrument, now);
    DroppedEvents(resting, instrument, now);
    if resting != [] {
      AscendingPrefix(resting);
      var init, r := resting[..|resting| - 1], resting[|resting| - 1];
      DropPrunes(cfg, init, instrument, now);
      assert r in resting;
      var (kept, events) := DropInstrument(init, instrument, now);
      PruneStep(cfg, init, kept, events, r, if r.order.instrument == instrument then None else Some(r),
                OrderCanceled(r.id, VenueCanceled, now));
    }
  }

  lemma {:induction false} DroppedElements(resting: seq<Resting>, instrument: nat, now: int)
    ensures forall r :: r in DropInstrument(resting, instrument, now).0 <==> r in resting && r.order.instrument != instrument
  {
    if resting != [] {
      assert resting == resting[..|resting| - 1] + [resting[|resting| - 1]];
      DroppedElements(resting[..|resting| - 1], instrument, now);
    }
  }

  lemma {:induction false} DroppedEvents(resting: seq<Resting>, instrument: nat, now: int)
    ensures forall e :: e in DropInstrument(resting, instrument, now).1
                        <==> exists r :: r in resting && r.order.instrument == instrument && e == OrderCanceled(r.id, VenueCanceled, now)
  {
    if resting != [] {
      var init, last := resting[..|resting| - 1], resting[|resting| - 1];
      assert resting == init + [last];
      DroppedEvents(init, instrument, now);
      var events := DropInstrument(init, instrument, now).1;
      forall e ensures e in DropInstrument(resting, instrument, now).1
                       <==> exists r :: r in resting && r.order.instrument == instrument && e == OrderCanceled(r.id, VenueCanceled, now) {
        if e in events {
          var r :| r in init && r.order.instrument == instrument && e == OrderCanceled(r.id, VenueCanceled, now);
          assert r in resting;
        }
      }
    }
  }

  lemma PruneNothing(cfg: Config, resting: seq<Resting>)
    requires Ascending(resting) && AllSound(cfg, resting)
    ensures PruneLaw(cfg, resting, resting, [])
  {
    forall a, b | a in resting && b in resting && a.id == b.id ensures a == b {
      var i :| 0 <= i < |resting| && resting[i] == a;
      var j :| 0 <= j < |resting| && resting[j] == b;
    }
  }

  lemma PruneTwice(cfg: Config, a: seq<Resting>, b: seq<Resting>, c: seq<Resting>, e: seq<AccountEvent>, f: seq<AccountEvent>)
    requires Ascending(a) && PruneLaw(cfg, a, b, e) && PruneLaw(cfg, b, c, f)
    ensures PruneLaw(cfg, a, c, e + f)
  {
    forall id: nat ensures PruneTallies(a, c, e + f, id) {
      assert PruneTallies(a, b, e, id) && PruneTallies(b, c, f, id);
      LogConcat(e, f, id);
    }
    forall z, x | z in c && x in a && z.id == x.id
      ensures z.order == x.order && z.armed == x.armed && z.filled >= x.filled
    {
      RestsAtMostOnce(a, x.id);
      RestsAtMostOnce(b, x.id);
      RestsAtMostOnce(c, x.id);
      assert PruneTallies(a, b, e, x.id) && PruneTallies(b, c, f, x.id);
      TallyNonNegative(f, TerminalOf(x.id));
      var y :| y in b && y.id == x.id;
    }
  }

  lemma {:induction false} ClaimsPrune(cfg: Config, resting: seq<Resting>, claims: seq<Claim>, now: int)
    requires Ascending(resting) && AllSound(cfg, resting)
    ensures PruneLaw(cfg, resting, ResolveClaims(resting, claims, now).0, ResolveClaims(resting, claims, now).1)
  {
    if claims == [] {
      PruneNothing(cfg, resting);
    } else {
      var init, c := claims[..|claims| - 1], claims[|claims| - 1];
      ClaimsPrune(cfg, resting, init, now);
      var (before, events) := ResolveClaims(resting, init, now);
      ClaimPrunes(cfg, before, c, now);
      PruneTwice(cfg, resting, before, ResolveClaim(before, c, now).0, events, ResolveClaim(before, c, now).1);
    }
  }

  /** Funding and liquidation: they prune the resting list, and emit no fill of an order. */
  lemma CloseOfBarPrunes(cfg: Config, v: Venue, bar: Bar, now: int)
    requires Ascending(v.resting) && AllSound(cfg, v.resting)
    ensures var (funded, funding) := AccrueFunding(cfg, v, bar, now);
            var (final, liquidated) := CheckLiquidation(cfg, funded, bar, now);
            PruneLaw(cfg, v.resting, final.resting, funding + liquidated)
  {
    var (funded, funding) := AccrueFunding(cfg, v, bar, now);
    var (final, liquidated) := CheckLiquidation(cfg, funded, bar, now);
    PruneNothing(cfg, v.resting);
    QuietEvents(cfg, v.resting, funding);
    assert funded.resting == v.resting;
    if liquidated == [] {
      assert funding + liquidated == funding;
    } else {
      DropPrunes(cfg, v.resting, bar.instrument, now);
      var canceled := DropInstrument(v.resting, bar.instrument, now).1;
      assert liquidated == liquidated[..1] + canceled;
      QuietEvents(cfg, v.resting, liquidated[..1]);
      PruneTwice(cfg, v.resting, v.resting, final.resting, liquidated[..1], canceled);
      PruneTwice(cfg, v.resting, v.resting, final.resting, funding, liquidated);
    }
  }

  /** At most one event, a funding settlement or a liquidation, says nothing about orders. */
  lemma QuietEvents(cfg: Config, resting: seq<Resting>, events: seq<AccountEvent>)
    requires |events| <= 1 && forall e :: e in events ==> e.FundingSettlement? || e.Liquidation?
    requires Ascending(resting) && AllSound(cfg, resting)
    ensures PruneLaw(cfg, resting, resting, events)
  {
    PruneNothing(cfg, resting);
    forall id: nat ensures PruneTallies(resting, resting, events, id) {
      if events != [] {
        assert events == [events[0]] && events[0] in events;
        ShortLogs(events[0], events[0], id);
      }
    }
  }

  // ---------------------------------------------------------------- one bar

  /** What one bar does to the resting orders, in terms of the events it emits. */
  ghost predicate BarLaw(before: seq<Resting>, after: seq<Resting>, events: seq<AccountEvent>) {
    && (forall bound: nat :: Below(before, bound) ==> Below(after, bound))
    && (forall id: nat :: BarTallies(before, after, events, id))
    && (forall r :: r in before ==> BarOrder(r, after, events))
    && (forall j :: 0 <= j < |events| && events[j].Fill? ==> Triggers(events[..j], events[j].id) == Triggers(events, events[j].id))
    && (forall e :: e in events ==> e.Fill? || Quiet(e))
  }

  ghost predicate BarTallies(before: seq<Resting>, after: seq<Resting>, events: seq<AccountEvent>, id: nat) {
    && Rests(before, id) == Rests(after, id) + Terminals(events, id)
    && Accepts(events, id) == 0
    && (Rests(before, id) == 0 ==> Triggers(events, id) == 0 && Filled(events, id) == 0)
  }

  ghost predicate BarOrder(r: Resting, after: seq<Resting>, events: seq<AccountEvent>) {
    && 0 <= Filled(events, r.id) <= r.order.qty - r.filled
    && 0 <= Triggers(events, r.id) && One(r.armed) + Triggers(events, r.id) <= 1
    && (Filled(events, r.id) > 0 && r.order.kind.Conditional() ==> One(r.armed) + Triggers(events, r.id) == 1)
    && (forall k :: k in after && k.id == r.id ==>
          && k.order == r.order
          && k.filled >= r.filled + Filled(events, r.id)
          && One(k.armed) == One(r.armed) + Triggers(events, r.id))
  }

  /** The parts a bar's event stream is made of. */
  ghost predicate BarParts(s: Scan, fills: seq<AccountEvent>, after: seq<Resting>, rest: seq<AccountEvent>, cfg: Config) {
    && (forall id: nat :: FillTallies(s.staged, fills, id))
    && (forall e :: e in fills ==> e.Fill?)
    && PruneLaw(cfg, s.kept, after, rest)
  }

  lemma ObservedParts(cfg: Config, v: Venue, bar: Bar, now: int) returns (s: Scan, fills: seq<AccountEvent>, rest: seq<AccountEvent>)
    requires Ascending(v.resting) && AllSound(cfg, v.resting)
    ensures s == ScanBar(cfg, Marked(v, bar), bar, now)
    ensures fills == SettleFills(cfg, Marked(v, bar).(resting := s.kept, drawn := s.drawn), s.staged, now).1
    ensures forall e :: e in rest ==> Quiet(e)
    ensures var (w, events) := Observed(cfg, v, bar, now);
            && events == s.events + fills + rest
            && BarParts(s, fills, w.resting, rest, cfg)
            && ScanLaw(cfg, v.resting, s)
  {
    hide Decide, Advance, ResolveClaim, SettleOne, PruneLaw, AccrueFunding, CheckLiquidation;
    var marked := Marked(v, bar);
    s := ScanBar(cfg, marked, bar, now);
    ScanObeysLaw(cfg, bar, now, v.resting, ScanStart(cfg, marked, bar));
    var v1 := marked.(resting := s.kept, drawn := s.drawn);
    var (settled, f) := SettleFills(cfg, v1, s.staged, now);
    fills := f;
    forall id: nat ensures FillTallies(s.staged, fills, id) { FillsTallies(cfg, v1, s.staged, now, id); }
    FillsTallies(cfg, v1, s.staged, now, 0);
    OnlyFills(cfg, v1, s.staged, now);
    ClaimsPrune(cfg, s.kept, s.claims, now);
    var (legs, resolved) := ResolveClaims(settled.resting, s.claims, now);
    assert Ascending(legs) && AllSound(cfg, legs) by { PruneGives(cfg, s.kept, legs, resolved); }
    var (funded, funding) := AccrueFunding(cfg, settled.(resting := legs), bar, now);
    var (final, liquidated) := CheckLiquidation(cfg, funded, bar, now);
    CloseOfBarPrunes(cfg, settled.(resting := legs), bar, now);
    PruneTwice(cfg, s.kept, legs, final.resting, resolved, funding + liquidated);
    rest := resolved + (funding + liquidated);
    assert s.events + fills + resolved + funding + liquidated == s.events + fills + rest;
    PruneGives(cfg, s.kept, final.resting, rest);
    assert forall e :: e in fills ==> e.Fill?;
    assert BarParts(s, fills, final.resting, rest, cfg);
  }

  lemma PruneGives(cfg: Config, before: seq<Resting>, after: seq<Resting>, events: seq<AccountEvent>)
    requires PruneLaw(cfg, before, after, events)
    ensures Ascending(after) && AllSound(cfg, after) && forall e :: e in events ==> Quiet(e)
  {
  }

  lemma {:induction false} OnlyFills(cfg: Config, v: Venue, staged: seq<Staged>, now: int)
    ensures var events := SettleFills(cfg, v, staged, now).1;
            |events| == |staged| && forall i :: 0 <= i < |staged| ==> events[i] == FillEvent(cfg, staged[i], now)
  {
    if staged != [] {
      OnlyFills(cfg, v, staged[..|staged| - 1], now);
    }
  }

  lemma ObserveObeysBarLaw(cfg: Config, v: Venue, bar: Bar, now: int)
    requires Ascending(v.resting) && AllSound(cfg, v.resting)
    ensures var (w, events) := Observed(cfg, v, bar, now);
            Ascending(w.resting) && AllSound(cfg, w.resting) && BarLaw(v.resting, w.resting, events)
  {
    hide Observed, ScanBar, BarLaw, ScanLaw;
    var s, fills, rest := ObservedParts(cfg, v, bar, now);
    var w := Observed(cfg, v, bar, now).0;
    BarLawFromParts(cfg, v.resting, w.resting, s, fills, rest);
  }

  lemma BarLawFromParts(cfg: Config, before: seq<Resting>, after: seq<Resting>, s: Scan, fills: seq<AccountEvent>, rest: seq<AccountEvent>)
    requires ScanLaw(cfg, before, s) && BarParts(s, fills, after, rest, cfg)
    ensures BarLaw(before, after, s.events + fills + rest)
  {
    var events := s.events + fills + rest;
    forall id: nat
      ensures BarTallies(before, after, events, id)
      ensures Triggers(events, id) == Triggers(s.events, id) && Filled(events, id) == StagedQty(s.staged, id)
    {
      LogConcat(s.events + fills, rest, id);
      LogConcat(s.events, fills, id);
      assert PruneTallies(s.kept, after, rest, id) && FillTallies(s.staged, fills, id);
    }
    forall r | r in before ensures BarOrder(r, after, events) {
      BarOrderFromParts(cfg, before, after, events, s, fills, rest, r);
    }
    forall id: nat ensures Triggers(rest, id) == 0 {
      assert PruneTallies(s.kept, after, rest, id);
    }
    forall j | 0 <= j < |events| && events[j].Fill?
      ensures Triggers(events[..j], events[j].id) == Triggers(events, events[j].id)
    {
      TriggersPrecedeFills(s.events, fills, rest, j);
    }
    forall bound: nat | Below(before, bound) ensures Below(after, bound) {
      assert Below(s.kept, bound);
    }
  }

  lemma BarOrderFromParts(cfg: Config, before: seq<Resting>, after: seq<Resting>, events: seq<AccountEvent>,
                          s: Scan, fills: seq<AccountEvent>, rest: seq<AccountEvent>, r: Resting)
    requires ScanLaw(cfg, before, s) && BarParts(s, fills, after, rest, cfg)
    requires r in before
    requires Triggers(events, r.id) == Triggers(s.events, r.id) && Filled(events, r.id) == StagedQty(s.staged, r.id)
    ensures BarOrder(r, after, events)
  {
    assert OrderLaw(r, s);
    forall k | k in after && k.id == r.id
      ensures k.order == r.order && k.filled >= r.filled + Filled(events, r.id)
              && One(k.armed) == One(r.armed) + Triggers(events, r.id)
    {
      assert PruneTallies(s.kept, after, rest, k.id);
      RestsAtMostOnce(after, k.id);
      TallyNonNegative(rest, TerminalOf(k.id));
      RestsAtMostOnce(s.kept, k.id);
      var m :| m in s.kept && m.id == k.id;
    }
  }

  lemma TriggersPrecedeFills(a: seq<AccountEvent>, fills: seq<AccountEvent>, rest: seq<AccountEvent>, j: nat)
    requires j < |a + fills + rest| && (a + fills + rest)[j].Fill?
    requires forall e :: e in a || e in rest ==> !e.Fill?
    requires forall e :: e in fills ==> e.Fill?
    requires forall id: nat :: Triggers(rest, id) == 0
    ensures var events := a + fills + rest; Triggers(events[..j], events[j].id) == Triggers(events, events[j].id)
  {
    var events := a + fills + rest;
    var id := events[j].id;
    assert forall k :: 0 <= k < |a| ==> events[k] == a[k] && a[k] in a;
    assert forall k :: 0 <= k < |rest| ==> events[|a + fills| + k] == rest[k] && rest[k] in rest;
    assert forall k :: |a + fills| <= k < |events| ==> events[k] == rest[k - |a + fills|];
    assert |a| <= j < |a + fills|;
    assert events[..j] == a + fills[..j - |a|];
    LogConcat(a, fills[..j - |a|], id);
    LogConcat(a + fills, rest, id);
    LogConcat(a, fills, id);
    FillsDoNotTrigger(fills, id);
    FillsDoNotTrigger(fills[..j - |a|], id);
  }

  lemma {:induction false} FillsDoNotTrigger(fills: seq<AccountEvent>, id: nat)
    requires forall e :: e in fills ==> e.Fill?
    ensures Triggers(fills, id) == 0
  {
    if fills != [] {
      assert fills[|fills| - 1] in fills;
      FillsDoNotTrigger(fills[..|fills| - 1], id);
    }
  }

  // ---------------------------------------------------------------- whole runs

  /** The order submitted under each id. */
  ghost function Submissions(ops: seq<Op>): map<nat, Order> {
    if ops == [] then
      map[]
    else
      var last := ops[|ops| - 1];
      var before := Submissions(ops[..|ops| - 1]);
      if last.Submit? then before[last.id := last.order] else before
  }

  /**
   * The books after a run: each submitted order was accepted at most once; an accepted order is
   * either resting or has ended, once; it triggered at most once; and it filled at most its size.
   */
  ghost predicate Books(orders: map<nat, Order>, v: Venue, log: seq<AccountEvent>) {
    && (forall id: nat :: Balanced(orders, v, log, id))
    && (forall r :: r in v.resting ==> Told(orders, r, log))
    && (forall j :: 0 <= j < |log| && log[j].Fill? ==> TriggeredFirst(orders, log, j))
  }

  ghost predicate Balanced(orders: map<nat, Order>, v: Venue, log: seq<AccountEvent>, id: nat) {
    && Accepts(log, id) == Rests(v.resting, id) + Terminals(log, id)
    && 0 <= Triggers(log, id) <= Accepts(log, id) <= One(id in orders)
    && 0 <= Filled(log, id)
    && (Filled(log, id) > 0 ==> id in orders && Filled(log, id) <= orders[id].qty)
  }

  ghost predicate Told(orders: map<nat, Order>, r: Resting, log: seq<AccountEvent>) {
    && r.id in orders && orders[r.id] == r.order
    && Triggers(log, r.id) == One(r.armed)
    && Filled(log, r.id) <= r.filled
  }

  ghost predicate TriggeredFirst(orders: map<nat, Order>, log: seq<AccountEvent>, j: nat)
    requires j < |log| && log[j].Fill?
  {
    var id := log[j].id;
    id in orders && (orders[id].kind.Conditional() ==> Triggers(log[..j], id) == 1)
  }

  lemma {:induction false} SubmissionsAreOlder(ops: seq<Op>, id: nat)
    requires forall i :: 0 <= i < |ops| && ops[i].Submit? ==> ops[i].id < id
    ensures id !in Submissions(ops)
    ensures forall k :: k in Submissions(ops) ==> k < id
  {
    if ops != [] { SubmissionsAreOlder(ops[..|ops| - 1], id); }
  }

  lemma SubmitEffect(cfg: Config, v: Venue, op: Op)
    requires op.Submit?
    ensures var (w, events) := Exec(cfg, v, op);
            || (w == v && |events| == 1 && events[0].OrderRejected? && events[0].id == op.id)
            || (events == [OrderAccepted(op.id, op.now)] && op.order.qty > 0 && op.order.instrument < |cfg.specs|
                && w == v.(resting := v.resting + [Resting(op.id, op.order, cfg.latencyBars, false, None, 0)]))
  {
    hide BuyCost, Reserved;
  }

  lemma CancelEffect(cfg: Config, v: Venue, op: Op)
    requires op.Cancel?
    ensures var (w, events) := Exec(cfg, v, op);
            var i := IndexOf(v.resting, op.id);
            || (w == v && i == |v.resting| && events == [OrderCancelRejected(op.id, op.now)])
            || (i < |v.resting| && v.resting[i].id == op.id && events == [OrderCanceled(op.id, Requested, op.now)]
                && w == v.(resting := v.resting[..i] + v.resting[i + 1..]))
  {
  }

  /** One event that neither fills nor triggers, accounted for by the resting list. */
  ghost predicate Accounted(orders: map<nat, Order>, more: map<nat, Order>, v: Venue, w: Venue, e: AccountEvent, id: nat) {
    && Rests(w.resting, id) + TerminalOf(id)(e) == Rests(v.resting, id) + AcceptOf(id)(e)
    && (AcceptOf(id)(e) > 0 ==> id !in orders && id in more)
  }

  lemma OneEventBalances(orders: map<nat, Order>, more: map<nat, Order>, v: Venue, w: Venue, log: seq<AccountEvent>, e: AccountEvent, id: nat)
    requires Balanced(orders, v, log, id) && Accounted(orders, more, v, w, e, id) && !e.Fill? && !e.OrderTriggered?
    requires forall k :: k in orders ==> k in more && more[k] == orders[k]
    ensures Balanced(more, w, log + [e], id)
    ensures Triggers(log + [e], id) == Triggers(log, id) && Filled(log + [e], id) == Filled(log, id)
  {
    LogConcat(log, [e], id);
    ShortLogs(e, e, id);
  }

  lemma OneEventKeepsBooks(orders: map<nat, Order>, more: map<nat, Order>, v: Venue, w: Venue, log: seq<AccountEvent>, e: AccountEvent)
    requires Books(orders, v, log) && !e.Fill? && !e.OrderTriggered?
    requires forall k :: k in orders ==> k in more && more[k] == orders[k]
    requires forall id: nat :: Accounted(orders, more, v, w, e, id)
    requires forall r :: r in w.resting ==>
               r in v.resting || (r.id !in orders && r.id in more && more[r.id] == r.order && !r.armed && r.filled == 0)
    ensures Books(more, w, log + [e])
  {
    forall id: nat ensures Balanced(more, w, log + [e], id) {
      OneEventBalances(orders, more, v, w, log, e, id);
    }
    forall r | r in w.resting ensures Told(more, r, log + [e]) {
      OneEventBalances(orders, more, v, w, log, e, r.id);
      assert r in v.resting ==> Told(orders, r, log);
    }
    OlderFillsStayTriggered(orders, more, log, [e]);
  }

  lemma RestingWereSubmitted(orders: map<nat, Order>, v: Venue, log: seq<AccountEvent>)
    requires Books(orders, v, log)
    ensures forall i :: 0 <= i < |v.resting| ==> v.resting[i].id in orders
  {
    forall i | 0 <= i < |v.resting| ensures v.resting[i].id in orders {
      assert Told(orders, v.resting[i], log);
    }
  }

  lemma SubmissionIsAccounted(cfg: Config, orders: map<nat, Order>, v: Venue, op: Op, id: nat)
    requires op.Submit? && op.id !in orders
    ensures var (w, events) := Exec(cfg, v, op);
            |events| == 1 && Accounted(orders, orders[op.id := op.order], v, w, events[0], id)
  {
    SubmitEffect(cfg, v, op);
    var w := Exec(cfg, v, op).0;
    hide Exec;
    if w != v { TallyPush(v.resting, w.resting[|v.resting|], RestOf(id)); }
  }

  lemma SubmissionStaysSound(cfg: Config, orders: map<nat, Order>, v: Venue, log: seq<AccountEvent>, op: Op)
    requires op.Submit? && op.id !in orders && forall k :: k in orders ==> k < op.id
    requires Ascending(v.resting) && AllSound(cfg, v.resting) && Books(orders, v, log)
    ensures var (w, events) := Exec(cfg, v, op);
            && Ascending(w.resting) && AllSound(cfg, w.resting)
            && |events| == 1 && !events[0].Fill? && !events[0].OrderTriggered?
            && forall r :: r in w.resting ==>
                 r in v.resting || (r.id == op.id && r.order == op.order && !r.armed && r.filled == 0)
  {
    SubmitEffect(cfg, v, op);
    RestingWereSubmitted(orders, v, log);
    hide Exec, Books;
  }

  lemma SubmitKeepsBooks(cfg: Config, orders: map<nat, Order>, v: Venue, log: seq<AccountEvent>, op: Op)
    requires op.Submit? && op.id !in orders && forall k :: k in orders ==> k < op.id
    requires Ascending(v.resting) && AllSound(cfg, v.resting) && Books(orders, v, log)
    ensures var (w, events) := Exec(cfg, v, op);
            Ascending(w.resting) && AllSound(cfg, w.resting) && Books(orders[op.id := op.order], w, log + events)
  {
    hide Exec, Books, Accounted, Ascending, AllSound;
    SubmissionStaysSound(cfg, orders, v, log, op);
    var (w, events) := Exec(cfg, v, op);
    var more := orders[op.id := op.order];
    forall id: nat ensures Accounted(orders, more, v, w, events[0], id) {
      SubmissionIsAccounted(cfg, orders, v, op, id);
    }
    assert events == [events[0]];
    OneEventKeepsBooks(orders, more, v, w, log, events[0]);
  }

  /** Appending events without fills keeps every earlier fill preceded by its trigger. */
  lemma OlderFillsStayTriggered(orders: map<nat, Order>, more: map<nat, Order>, log: seq<AccountEvent>, events: seq<AccountEvent>)
    requires forall j :: 0 <= j < |log| && log[j].Fill? ==> TriggeredFirst(orders, log, j)
    requires forall k :: k in orders ==> k in more && more[k] == orders[k]
    requires forall e :: e in events ==> !e.Fill?
    ensures forall j :: 0 <= j < |log + events| && (log + events)[j].Fill? ==> TriggeredFirst(more, log + events, j)
  {
    forall j | 0 <= j < |log + events| && (log + events)[j].Fill? ensures TriggeredFirst(more, log + events, j) {
      assert forall k :: |log| <= k < |log + events| ==> (log + events)[k] == events[k - |log|] && events[k - |log|] in events;
      assert (log + events)[..j] == log[..j];
      assert TriggeredFirst(orders, log, j);
    }
  }

  lemma CancelKeepsBooks(cfg: Config, orders: map<nat, Order>, v: Venue, log: seq<AccountEvent>, op: Op)
    requires op.Cancel?
    requires Ascending(v.resting) && AllSound(cfg, v.resting) && Books(orders, v, log)
    ensures var (w, events) := Exec(cfg, v, op);
            Ascending(w.resting) && AllSound(cfg, w.resting) && Books(orders, w, log + events)
  {
    hide Exec, Books, Tally;
    CancelEffect(cfg, v, op);
    var (w, events) := Exec(cfg, v, op);
    var i := IndexOf(v.resting, op.id);
    if i < |v.resting| { WithoutKeepsOrder(v.resting, i); }
    forall id: nat ensures Accounted(orders, orders, v, w, events[0], id) {
      if w != v { RestsWithout(v.resting, i, id); }
    }
    assert events == [events[0]];
    OneEventKeepsBooks(orders, orders, v, w, log, events[0]);
  }

  lemma WithoutKeepsOrder(resting: seq<Resting>, i: nat)
    requires i < |resting|
    ensures Ascending(resting) ==> Ascending(resting[..i] + resting[i + 1..])
    ensures forall r :: r in resting[..i] + resting[i + 1..] ==> r in resting
  {
  }

  lemma RestsWithout(resting: seq<Resting>, i: nat, id: nat)
    requires i < |resting|
    ensures Rests(resting[..i] + resting[i + 1..], id) == Rests(resting, id) - One(resting[i].id == id)
  {
    var a, r, b := resting[..i], resting[i], resting[i + 1..];
    assert resting == (a + [r]) + b;
    TallyConcat(a + [r], b, RestOf(id));
    TallyPush(a, r, RestOf(id));
    TallyConcat(a, b, RestOf(id));
  }

  lemma ObserveKeepsBooks(cfg: Config, orders: map<nat, Order>, v: Venue, log: seq<AccountEvent>, op: Op)
    requires op.Observe?
    requires Ascending(v.resting) && AllSound(cfg, v.resting) && Books(orders, v, log)
    ensures var (w, events) := Exec(cfg, v, op);
            Ascending(w.resting) && AllSound(cfg, w.resting) && Books(orders, w, log + events)
  {
    hide Observed;
    var (w, events) := Exec(cfg, v, op);
    ObserveObeysBarLaw(cfg, v, op.bar, op.now);
    forall id: nat ensures Balanced(orders, w, log + events, id) {
      BarBalances(orders, v, w, log, events, id);
    }
    forall k | k in w.resting ensures Told(orders, k, log + events) {
      BarTells(orders, v, w, log, events, k);
    }
    forall j | 0 <= j < |log + events| && (log + events)[j].Fill? ensures TriggeredFirst(orders, log + events, j) {
      if j < |log| {
        assert (log + events)[..j] == log[..j];
        assert TriggeredFirst(orders, log, j);
      } else {
        BarTriggersFirst(cfg, orders, v, w, log, op.bar, op.now, j - |log|);
        assert (log + events)[..j] == log + events[..j - |log|];
      }
    }
  }

  lemma BarBalances(orders: map<nat, Order>, v: Venue, w: Venue, log: seq<AccountEvent>, events: seq<AccountEvent>, id: nat)
    requires Ascending(v.resting) && Ascending(w.resting) && Books(orders, v, log) && BarLaw(v.resting, w.resting, events)
    ensures Balanced(orders, w, log + events, id)
  {
    assert Balanced(orders, v, log, id) && BarTallies(v.resting, w.resting, events, id);
    LogConcat(log, events, id);
    RestsAtMostOnce(v.resting, id);
    TallyNonNegative(log, TerminalOf(id));
    if Rests(v.resting, id) == 1 {
      var r :| r in v.resting && r.id == id;
      assert Told(orders, r, log) && BarOrder(r, w.resting, events);
    }
  }

  lemma BarTells(orders: map<nat, Order>, v: Venue, w: Venue, log: seq<AccountEvent>, events: seq<AccountEvent>, k: Resting)
    requires Ascending(v.resting) && Ascending(w.resting) && Books(orders, v, log) && BarLaw(v.resting, w.resting, events)
    requires k in w.resting
    ensures Told(orders, k, log + events)
  {
    LogConcat(log, events, k.id);
    assert BarTallies(v.resting, w.resting, events, k.id);
    RestsAtMostOnce(v.resting, k.id);
    RestsAtMostOnce(w.resting, k.id);
    TallyNonNegative(events, TerminalOf(k.id));
    var r :| r in v.resting && r.id == k.id;
    assert Told(orders, r, log) && BarOrder(r, w.resting, events);
  }

  lemma BarTriggersFirst(cfg: Config, orders: map<nat, Order>, v: Venue, w: Venue, log: seq<AccountEvent>, bar: Bar, now: int, j: nat)
    requires Ascending(v.resting) && AllSound(cfg, v.resting) && Books(orders, v, log)
    requires w == Observed(cfg, v, bar, now).0
    requires var events := Observed(cfg, v, bar, now).1;
             j < |events| && events[j].Fill? && BarLaw(v.resting, w.resting, events)
    ensures var events := Observed(cfg, v, bar, now).1;
            var id := events[j].id;
            id in orders && (orders[id].kind.Conditional() ==> Triggers(log + events[..j], id) == 1)
  {
    var events := Observed(cfg, v, bar, now).1;
    var id := events[j].id;
    LogConcat(log, events[..j], id);
    FillsArePositive(cfg, v, bar, now);
    TallyNonNegative(events, FillOf(id));
    assert events[j] in events && FillOf(id)(events[j]) > 0;
    assert BarTallies(v.resting, w.resting, events, id);
    RestsAtMostOnce(v.resting, id);
    var r :| r in v.resting && r.id == id;
    assert Told(orders, r, log) && BarOrder(r, w.resting, events);
  }

  lemma {:induction false} StagedArePositive(cfg: Config, bar: Bar, now: int, pending: seq<Resting>, start: Scan)
    requires AllSound(cfg, pending) && start.staged == []
    ensures forall f :: f in ScanOrders(cfg, bar, now, pending, start).staged ==> f.qty > 0 && f.instrument == bar.instrument
  {
    if pending != [] {
      var init, r := pending[..|pending| - 1], pending[|pending| - 1];
      assert pending == init + [r];
      StagedArePositive(cfg, bar, now, init, start);
      DecisionFate(cfg, bar, now, ScanOrders(cfg, bar, now, init, start), r);
    }
  }

  lemma FillsArePositive(cfg: Config, v: Venue, bar: Bar, now: int)
    requires Ascending(v.resting) && AllSound(cfg, v.resting)
    ensures forall e :: e in Observed(cfg, v, bar, now).1 && e.Fill? ==> e.qty > 0 && e.instrument == bar.instrument
  {
    hide Observed, SettleFills;
    var s, fills, rest := ObservedParts(cfg, v, bar, now);
    StagedArePositive(cfg, bar, now, v.resting, ScanStart(cfg, Marked(v, bar), bar));
    OnlyFills(cfg, Marked(v, bar).(resting := s.kept, drawn := s.drawn), s.staged, now);
    forall e | e in s.events + fills + rest && e.Fill? ensures e.qty > 0 && e.instrument == bar.instrument {
      var i :| 0 <= i < |fills| && fills[i] == e;
      assert s.staged[i] in s.staged;
    }
  }

  /** The books balance after every run of the venue, whatever is submitted, canceled and observed. */
  lemma {:induction false} EveryRunKeepsTheBooks(cfg: Config, cash: Option<int>, ops: seq<Op>)
    requires FreshIds(ops)
    ensures var (v, log) := RunOps(cfg, cash, ops);
            && Books(Submissions(ops), v, log)
            && Ascending(v.resting) && AllSound(cfg, v.resting)
  {
    if ops == [] {
      ShortLogs(OrderTriggered(0, 0), OrderTriggered(0, 0), 0);
      forall id: nat { ShortLogs(OrderTriggered(0, 0), OrderTriggered(0, 0), id); }
    } else {
      var init, op := ops[..|ops| - 1], ops[|ops| - 1];
      EveryRunKeepsTheBooks(cfg, cash, init);
      var (v, log) := RunOps(cfg, cash, init);
      match op
      case Submit(id, _, _) =>
        SubmissionsAreOlder(init, id);
        SubmitKeepsBooks(cfg, Submissions(init), v, log, op);
      case Cancel(_, _) => CancelKeepsBooks(cfg, Submissions(init), v, log, op);
      case Observe(_, _) => ObserveKeepsBooks(cfg, Submissions(init), v, log, op);
    }
  }
}
