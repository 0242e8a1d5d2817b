/**
 * A whole bar, from the events it emits. What an order meets is read off the fills before it; after
 * the pass a sibling of a leg that filled is shrunk to what the leg left open, or canceled when
 * nothing is; and a liquidation cancels what rests on its instrument. So every order that rested is
 * accounted for exactly, and over every run each one that ends has a reason to.
 */
module BarOutcomes {
  import opened Prelude
  import opened Trading
  import opened Exchange
  import opened Lifecycle
  import opened FillSafety
  import opened FillCosts
  import opened OrderFate
  import opened BarFates
  import opened Liquidations

  // ---------------------------------------------------------------- claims

  predicate SiblingOf(r: Resting, c: Claim) {
    r.order.group == Some(c.group) && r.id != c.keeper
  }

  /** What the keeper's fill leaves of a sibling: nothing, or the part it has not filled. */
  function Shrunk(r: Resting, c: Claim): Option<Resting> {
    if c.complete || r.order.qty <= c.filled then None else Some(r.(filled := Max(r.filled, c.filled)))
  }

  /** What the claims leave of a leg. */
  ghost predicate LegLeft(r: Resting, claims: seq<Claim>, left: Option<Resting>) {
    && (forall c :: c in claims && SiblingOf(r, c) ==> left == Shrunk(r, c))
    && ((forall c :: c in claims ==> !SiblingOf(r, c)) ==> left == Some(r))
  }

  ghost predicate LeftOf(resting: seq<Resting>, claims: seq<Claim>, k: Resting) {
    exists r :: r in resting && LegLeft(r, claims, Some(k))
  }

  ghost predicate CanceledOf(resting: seq<Resting>, claims: seq<Claim>, now: int, e: AccountEvent) {
    exists r :: r in resting && LegLeft(r, claims, None) && e == OrderCanceled(r.id, OcoTriggered, now)
  }

  lemma LegResolves(r: Resting, c: Claim)
    ensures ResolveLeg(r, c) == if SiblingOf(r, c) then Shrunk(r, c) else Some(r)
  {
  }

  ghost predicate ResolvedFrom(resting: seq<Resting>, c: Claim, k: Resting) {
    exists r :: r in resting && k in Listed(if SiblingOf(r, c) then Shrunk(r, c) else Some(r))
  }

  ghost predicate ResolvedAway(resting: seq<Resting>, c: Claim, now: int, e: AccountEvent) {
    exists r :: r in resting && SiblingOf(r, c) && Shrunk(r, c).None? && e == OrderCanceled(r.id, OcoTriggered, now)
  }

  lemma ResolvedMore(init: seq<Resting>, last: Resting, c: Claim, k: Resting)
    ensures ResolvedFrom(init + [last], c, k)
            <==> ResolvedFrom(init, c, k) || k in Listed(if SiblingOf(last, c) then Shrunk(last, c) else Some(last))
  {
    hide Shrunk, SiblingOf;
    if ResolvedFrom(init, c, k) {
      var r :| r in init && k in Listed(if SiblingOf(r, c) then Shrunk(r, c) else Some(r));
      assert r in init + [last];
    }
    assert last in init + [last];
  }

  lemma ResolvedAwayMore(init: seq<Resting>, last: Resting, c: Claim, now: int, e: AccountEvent)
    ensures ResolvedAway(init + [last], c, now, e)
            <==> ResolvedAway(init, c, now, e) || (SiblingOf(last, c) && Shrunk(last, c).None? && e == OrderCanceled(last.id, OcoTriggered, now))
  {
    hide Shrunk, SiblingOf;
    if ResolvedAway(init, c, now, e) {
      var r :| r in init && SiblingOf(r, c) && Shrunk(r, c).None? && e == OrderCanceled(r.id, OcoTriggered, now);
      assert r in init + [last];
    }
    assert last in init + [last];
  }

  /** One claim: each sibling shrinks or is canceled, everything else stays. */
  lemma {:induction false} ClaimResolves(resting: seq<Resting>, c: Claim, now: int)
    ensures forall k :: k in ResolveClaim(resting, c, now).0 <==> ResolvedFrom(resting, c, k)
    ensures forall e :: e in ResolveClaim(resting, c, now).1 <==> ResolvedAway(resting, c, now, e)
  {
    if resting != [] {
      hide ResolvedFrom, ResolvedAway, ResolveLeg, Shrunk, SiblingOf;
      var init, last := resting[..|resting| - 1], resting[|resting| - 1];
      assert resting == init + [last];
      ClaimResolves(init, c, now);
      LegResolves(last, c);
      forall k { ResolvedMore(init, last, c, k); }
      forall e { ResolvedAwayMore(init, last, c, now, e); }
    }
  }

  ghost predicate GroupsDiffer(claims: seq<Claim>) {
    forall i, j :: 0 <= i < j < |claims| ==> claims[i].group != claims[j].group
  }

  /** What the claims up to the last leave of a leg, and then the last. */
  lemma LegAfter(r: Resting, init: seq<Claim>, c: Claim, left: Option<Resting>)
    requires GroupsDiffer(init + [c])
    ensures LegLeft(r, init + [c], left)
            <==> if SiblingOf(r, c) then LegLeft(r, init, Some(r)) && left == Shrunk(r, c) else LegLeft(r, init, left)
  {
    hide Shrunk;
    var all := init + [c];
    assert c in all && forall x :: x in init ==> x in all;
    if SiblingOf(r, c) {
      forall x | x in init ensures !SiblingOf(r, x) {
        var i :| 0 <= i < |init| && init[i] == x;
        assert all[i] == x && all[|init|] == c;
      }
    }
  }

  lemma LegIsLeft(r: Resting, claims: seq<Claim>) returns (left: Option<Resting>)
    requires GroupsDiffer(claims)
    ensures LegLeft(r, claims, left) && forall other :: LegLeft(r, claims, other) ==> other == left
    ensures left.Some? ==> left.value.order == r.order && left.value.id == r.id
    ensures (exists c :: c in claims && SiblingOf(r, c)) || left == Some(r)
  {
    if c :| c in claims && SiblingOf(r, c) {
      left := Shrunk(r, c);
      var k :| 0 <= k < |claims| && claims[k] == c;
      forall x | x in claims && SiblingOf(r, x) ensures x == c {
        var i :| 0 <= i < |claims| && claims[i] == x;
      }
    } else {
      left := Some(r);
    }
  }

  /** A leg left after earlier claims is the leg it was, shrunk at most; a later claim finds it whole. */
  lemma LeftKeeps(r: Resting, init: seq<Claim>, c: Claim, k: Resting)
    requires GroupsDiffer(init + [c]) && LegLeft(r, init, Some(k))
    ensures k.order == r.order && k.id == r.id && (SiblingOf(r, c) <==> SiblingOf(k, c)) && (SiblingOf(r, c) ==> k == r)
  {
    PartDiffers(init, c);
    var left := LegIsLeft(r, init);
    hide LegLeft;
    if SiblingOf(r, c) { NoEarlierSibling(r, init, c); }
  }

  lemma PartDiffers(init: seq<Claim>, c: Claim)
    requires GroupsDiffer(init + [c])
    ensures GroupsDiffer(init)
  {
    forall i, j | 0 <= i < j < |init| ensures init[i].group != init[j].group {
      assert (init + [c])[i] == init[i] && (init + [c])[j] == init[j];
    }
  }

  lemma NoEarlierSibling(r: Resting, init: seq<Claim>, c: Claim)
    requires GroupsDiffer(init + [c]) && SiblingOf(r, c)
    ensures forall x :: x in init ==> !SiblingOf(r, x)
  {
    forall x | x in init ensures !SiblingOf(r, x) {
      var i :| 0 <= i < |init| && init[i] == x;
      assert (init + [c])[i] == x && (init + [c])[|init|] == c;
    }
  }

  lemma LeftStep(resting: seq<Resting>, before: seq<Resting>, init: seq<Claim>, c: Claim, k: Resting)
    requires GroupsDiffer(init + [c]) && forall x :: x in before <==> LeftOf(resting, init, x)
    ensures ResolvedFrom(before, c, k) <==> LeftOf(resting, init + [c], k)
  {
    hide LegLeft, Shrunk, SiblingOf, GroupsDiffer;
    if ResolvedFrom(before, c, k) {
      var x :| x in before && k in Listed(if SiblingOf(x, c) then Shrunk(x, c) else Some(x));
      assert LeftOf(resting, init, x);
      var r :| r in resting && LegLeft(r, init, Some(x));
      LeftKeeps(r, init, c, x);
      LegAfter(r, init, c, Some(k));
    }
    if LeftOf(resting, init + [c], k) {
      var r :| r in resting && LegLeft(r, init + [c], Some(k));
      LegAfter(r, init, c, Some(k));
      var x := if SiblingOf(r, c) then r else k;
      assert LeftOf(resting, init, x);
      LeftKeeps(r, init, c, x);
    }
  }

  lemma CanceledStep(resting: seq<Resting>, before: seq<Resting>, init: seq<Claim>, c: Claim, now: int, e: AccountEvent)
    requires GroupsDiffer(init + [c]) && forall x :: x in before <==> LeftOf(resting, init, x)
    ensures CanceledOf(resting, init, now, e) || ResolvedAway(before, c, now, e) <==> CanceledOf(resting, init + [c], now, e)
  {
    hide LegLeft, Shrunk, SiblingOf, GroupsDiffer;
    if CanceledOf(resting, init, now, e) {
      var r :| r in resting && LegLeft(r, init, None) && e == OrderCanceled(r.id, OcoTriggered, now);
      GoneStaysGone(r, init, c);
    }
    if ResolvedAway(before, c, now, e) {
      var x :| x in before && SiblingOf(x, c) && Shrunk(x, c).None? && e == OrderCanceled(x.id, OcoTriggered, now);
      assert LeftOf(resting, init, x);
      var r :| r in resting && LegLeft(r, init, Some(x));
      LeftKeeps(r, init, c, x);
      LegAfter(r, init, c, None);
    }
    if CanceledOf(resting, init + [c], now, e) {
      var r :| r in resting && LegLeft(r, init + [c], None) && e == OrderCanceled(r.id, OcoTriggered, now);
      LegAfter(r, init, c, None);
      if SiblingOf(r, c) { assert LeftOf(resting, init, r); }
    }
  }

  lemma GoneStaysGone(r: Resting, init: seq<Claim>, c: Claim)
    requires GroupsDiffer(init + [c]) && LegLeft(r, init, None)
    ensures LegLeft(r, init + [c], None)
  {
    LegAfter(r, init, c, None);
    if SiblingOf(r, c) { NoEarlierSibling(r, init, c); }
  }

  /** All claims: exactly the legs they leave rest on, and exactly the others are canceled. */
  lemma {:induction false} ClaimsResolve(resting: seq<Resting>, claims: seq<Claim>, now: int)
    requires GroupsDiffer(claims)
    ensures forall k :: k in ResolveClaims(resting, claims, now).0 <==> LeftOf(resting, claims, k)
    ensures forall e :: e in ResolveClaims(resting, claims, now).1 <==> CanceledOf(resting, claims, now, e)
  {
    if claims == [] {
      NoClaims(resting, now);
    } else {
      hide LeftOf, CanceledOf, ResolveClaim, ResolvedFrom, ResolvedAway, GroupsDiffer;
      var init, c := claims[..|claims| - 1], claims[|claims| - 1];
      assert claims == init + [c];
      PartDiffers(init, c);
      ClaimsResolve(resting, init, now);
      var before := ResolveClaims(resting, init, now).0;
      ClaimResolves(before, c, now);
      forall k { LeftStep(resting, before, init, c, k); }
      forall e { CanceledStep(resting, before, init, c, now, e); }
    }
  }

  lemma NoClaims(resting: seq<Resting>, now: int)
    ensures forall k :: k in resting <==> LeftOf(resting, [], k)
    ensures forall e :: !CanceledOf(resting, [], now, e)
  {
    forall k ensures k in resting <==> LeftOf(resting, [], k) {
      if k in resting { assert LegLeft(k, [], Some(k)); }
    }
  }

  // ---------------------------------------------------------------- read off the events

  function TakenBefore(id: nat): AccountEvent -> int {
    (e: AccountEvent) => if e.Fill? && e.id < id then e.qty else 0
  }

  function TradedBefore(id: nat): AccountEvent -> int {
    (e: AccountEvent) => if e.Fill? && e.id < id then e.side.Sign() * e.qty else 0
  }

  /** A fill of another leg of the order's group. */
  predicate SiblingFill(q: Resting, e: AccountEvent, r: Resting) {
    e.Fill? && e.id == q.id && q.id != r.id && r.order.group.Some? && q.order.group == r.order.group
  }

  ghost predicate ClaimedBefore(resting: seq<Resting>, events: seq<AccountEvent>, r: Resting) {
    exists q, e :: q in resting && e in events && SiblingFill(q, e, r) && q.id < r.id
  }

  /** What the order meets: the volume, the position and the draws that the orders before it leave. */
  ghost function MetOn(cfg: Config, v: Venue, bar: Bar, events: seq<AccountEvent>, r: Resting): Met {
    Met(if cfg.participationBps.Some? then
          Some(TruncDiv(bar.volume * cfg.participationBps.value, 10_000) - Tally(events, TakenBefore(r.id)))
        else None,
        ShadowOf(v.shadows, bar.instrument).net + Tally(events, TradedBefore(r.id)),
        ClaimedBefore(v.resting, events, r),
        v.drawn + DrawsBefore(cfg, bar, v.resting, r.id))
  }

  /** The stages of a bar. */
  lemma Stages(cfg: Config, v: Venue, bar: Bar, now: int)
    returns (s: Scan, fills: seq<AccountEvent>, resolved: seq<AccountEvent>, funding: seq<AccountEvent>, closing: seq<AccountEvent>)
    ensures s == ScanBar(cfg, Marked(v, bar), bar, now)
    ensures |fills| == |s.staged| && forall i :: 0 <= i < |fills| ==> fills[i] == FillEvent(cfg, s.staged[i], now)
    ensures resolved == ResolveClaims(s.kept, s.claims, now).1 && forall e :: e in funding ==> e.FundingSettlement?
    ensures var (w, events) := Observed(cfg, v, bar, now);
            var legs := ResolveClaims(s.kept, s.claims, now).0;
            && events == s.events + fills + resolved + funding + closing
            && if closing == [] then w.resting == legs
               else closing[0].Liquidation? && (w.resting, closing[1..]) == DropInstrument(legs, bar.instrument, now)
  {
    hide ScanOrders, ResolveClaims, SettleFills, MustLiquidate, LiquidationFill, MulRate, FundingRateAt, FeeCosts, SettleOne;
    var marked := Marked(v, bar);
    s := ScanBar(cfg, marked, bar, now);
    var ready := marked.(resting := s.kept, drawn := s.drawn);
    var (settled, f) := SettleFills(cfg, ready, s.staged, now);
    FillsTallies(cfg, ready, s.staged, now, 0);
    OnlyFills(cfg, ready, s.staged, now);
    var (legs, r) := ResolveClaims(settled.resting, s.claims, now);
    var (funded, g) := AccrueFunding(cfg, settled.(resting := legs), bar, now);
    var (final, c) := CheckLiquidation(cfg, funded, bar, now);
    fills, resolved, funding, closing := f, r, g, c;
  }

  /** Each fill is the event of a staged one, and the bar emits no other. */
  ghost predicate FillsAre(cfg: Config, now: int, staged: seq<Staged>, events: seq<AccountEvent>) {
    && (forall e :: e in events && e.Fill? ==> exists f :: f in staged && e == FillEvent(cfg, f, now))
    && (forall f :: f in staged ==> FillEvent(cfg, f, now) in events)
  }

  lemma {:induction false} NoneTaken(events: seq<AccountEvent>, id: nat)
    requires forall e :: e in events ==> !e.Fill?
    ensures Tally(events, TakenBefore(id)) == 0 && Tally(events, TradedBefore(id)) == 0
  {
    if events != [] {
      assert events == events[..|events| - 1] + [events[|events| - 1]];
      NoneTaken(events[..|events| - 1], id);
    }
  }

  lemma {:induction false} TakenIsStaged(cfg: Config, now: int, staged: seq<Staged>, fills: seq<AccountEvent>, id: nat)
    requires |fills| == |staged| && forall i :: 0 <= i < |fills| ==> fills[i] == FillEvent(cfg, staged[i], now)
    ensures Tally(fills, TakenBefore(id)) == Tally(staged, QtyBefore(id)) && Tally(fills, TradedBefore(id)) == Tally(staged, SignedBefore(id))
  {
    if fills != [] {
      hide FeeCosts;
      TakenIsStaged(cfg, now, staged[..|staged| - 1], fills[..|fills| - 1], id);
    }
  }

  lemma EventTallies(cfg: Config, now: int, s: Scan, fills: seq<AccountEvent>, rest: seq<AccountEvent>, id: nat)
    requires |fills| == |s.staged| && forall i :: 0 <= i < |fills| ==> fills[i] == FillEvent(cfg, s.staged[i], now)
    requires (forall e :: e in s.events ==> !e.Fill?) && (forall e :: e in rest ==> !e.Fill?)
    ensures Tally(s.events + fills + rest, TakenBefore(id)) == Tally(s.staged, QtyBefore(id))
    ensures Tally(s.events + fills + rest, TradedBefore(id)) == Tally(s.staged, SignedBefore(id))
  {
    hide FillEvent;
    NoneTaken(s.events, id);
    NoneTaken(rest, id);
    TakenIsStaged(cfg, now, s.staged, fills, id);
    TallyConcat(s.events + fills, rest, TakenBefore(id));
    TallyConcat(s.events, fills, TakenBefore(id));
    TallyConcat(s.events + fills, rest, TradedBefore(id));
    TallyConcat(s.events, fills, TradedBefore(id));
  }

  lemma ClaimedIsRead(cfg: Config, now: int, resting: seq<Resting>, staged: seq<Staged>, events: seq<AccountEvent>, r: Resting)
    requires FillsAre(cfg, now, staged, events)
    ensures ClaimedBefore(resting, events, r) <==> ClaimedIn(resting, staged, r)
  {
    hide FeeCosts;
    if ClaimedBefore(resting, events, r) {
      var q, e :| q in resting && e in events && SiblingFill(q, e, r) && q.id < r.id;
      var f :| f in staged && e == FillEvent(cfg, f, now);
      assert StagedLeg(q, f, r);
    }
    if ClaimedIn(resting, staged, r) {
      var q, f :| q in resting && f in staged && StagedLeg(q, f, r) && q.id < r.id;
      assert SiblingFill(q, FillEvent(cfg, f, now), r);
    }
  }

  /** What the pass reports beside fills ends or triggers an order. */
  lemma MadeIsQuiet(cfg: Config, bar: Bar, now: int, start: Scan, pending: seq<Resting>, s: Scan)
    requires PassFates(cfg, bar, now, start, pending, s)
    ensures forall e :: e in s.events ==> e.OrderCanceled? || e.OrderExpired? || e.OrderTriggered?
  {
    hide Produced, MetIn, Fires, Refused, Useless, Beaten, Expires, KeptFrom, FilledFrom;
    forall e | e in s.events ensures e.OrderCanceled? || e.OrderExpired? || e.OrderTriggered? {
      assert EventFrom(cfg, bar, now, start, pending, s, e);
    }
  }

  // ---------------------------------------------------------------- siblings of a leg that filled

  /** The leg's fill leaves nothing of the order to protect. */
  predicate LeavesNothing(q: Resting, e: AccountEvent, r: Resting)
    requires e.Fill?
  {
    e.complete || r.order.qty <= q.filled + e.qty
  }

  /** After the pass the order is canceled, because a leg of its group filled and left it nothing. */
  ghost predicate Released(resting: seq<Resting>, events: seq<AccountEvent>, r: Resting) {
    exists q, e :: q in resting && e in events && SiblingFill(q, e, r) && LeavesNothing(q, e, r)
  }

  /** What still rests counts as filled whatever a leg of its group has filled. */
  ghost predicate IsShrunk(resting: seq<Resting>, events: seq<AccountEvent>, r: Resting, left: Resting, k: Resting) {
    && k == left.(filled := k.filled)
    && (forall q, e :: q in resting && e in events && SiblingFill(q, e, r) ==> k.filled == Max(left.filled, q.filled + e.qty))
    && ((forall q, e :: q in resting && e in events ==> !SiblingFill(q, e, r)) ==> k.filled == left.filled)
  }

  lemma SameOrder(resting: seq<Resting>, a: Resting, b: Resting)
    requires Ascending(resting) && a in resting && b in resting && a.id == b.id
    ensures a == b
  {
    var i :| 0 <= i < |resting| && resting[i] == a;
    var j :| 0 <= j < |resting| && resting[j] == b;
  }

  lemma SameStaged(staged: seq<Staged>, f: Staged, g: Staged)
    requires StagedInOrder(staged) && f in staged && g in staged && f.id == g.id
    ensures f == g
  {
    var i :| 0 <= i < |staged| && staged[i] == f;
    var j :| 0 <= j < |staged| && staged[j] == g;
  }

  predicate ClaimOfFill(c: Claim, q: Resting, e: AccountEvent)
    requires e.Fill?
  {
    c.keeper == q.id && c.filled == q.filled + e.qty && c.complete == e.complete
  }

  /** A claim on the order's group is the fill of a leg. */
  lemma ClaimIsFill(cfg: Config, now: int, resting: seq<Resting>, s: Scan, events: seq<AccountEvent>, r: Resting, c: Claim)
    returns (q: Resting, e: AccountEvent)
    requires ClaimsAre(resting, s) && FillsAre(cfg, now, s.staged, events) && c in s.claims && SiblingOf(r, c)
    ensures q in resting && e in events && SiblingFill(q, e, r) && ClaimOfFill(c, q, e)
  {
    hide FeeCosts, HasClaim;
    assert ClaimIs(resting, s.staged, c);
    var q', f :| q' in resting && f in s.staged && ClaimFrom(q', f, c);
    q, e := q', FillEvent(cfg, f, now);
  }

  /** And the fill of a leg is a claim on the group. */
  lemma FillIsClaim(cfg: Config, now: int, resting: seq<Resting>, s: Scan, events: seq<AccountEvent>, r: Resting, q: Resting, e: AccountEvent)
    returns (c: Claim)
    requires Ascending(resting) && ClaimsAre(resting, s) && StagedInOrder(s.staged) && FillsAre(cfg, now, s.staged, events)
    requires q in resting && e in events && SiblingFill(q, e, r)
    ensures c in s.claims && SiblingOf(r, c) && ClaimOfFill(c, q, e)
  {
    hide FeeCosts, Ascending, StagedInOrder;
    var f :| f in s.staged && e == FillEvent(cfg, f, now);
    hide FillsAre;
    assert HasClaim(s.claims, q);
    c :| c in s.claims && q.order.group == Some(c.group) && c.keeper == q.id;
    assert ClaimIs(resting, s.staged, c);
    var q', g :| q' in resting && g in s.staged && ClaimFrom(q', g, c);
    SameOrder(resting, q, q');
    SameStaged(s.staged, f, g);
  }

  /** What the claims leave of a leg, read off the fills of its group. */
  lemma LegIsRead(cfg: Config, now: int, resting: seq<Resting>, s: Scan, events: seq<AccountEvent>, r: Resting, left: Resting, k: Option<Resting>)
    requires Ascending(resting) && ClaimsAre(resting, s) && StagedInOrder(s.staged) && FillsAre(cfg, now, s.staged, events)
    requires left.order == r.order && left.id == r.id && LegLeft(left, s.claims, k)
    ensures if k.None? then Released(resting, events, r) else !Released(resting, events, r) && IsShrunk(resting, events, r, left, k.value)
  {
    hide ClaimsAre, FillsAre, Ascending, StagedInOrder;
    if c :| c in s.claims && SiblingOf(left, c) {
      var q, e := ClaimIsFill(cfg, now, resting, s, events, r, c);
      forall p, d | p in resting && d in events && SiblingFill(p, d, r)
        ensures Shrunk(left, c) == k && (LeavesNothing(p, d, r) <==> k.None?) && (k.Some? ==> k.value.filled == Max(left.filled, p.filled + d.qty))
      {
        var x := FillIsClaim(cfg, now, resting, s, events, r, p, d);
        assert Shrunk(left, x) == k;
      }
    } else {
      forall p, d | p in resting && d in events ensures !SiblingFill(p, d, r) {
        if SiblingFill(p, d, r) { var x := FillIsClaim(cfg, now, resting, s, events, r, p, d); }
      }
    }
  }

  lemma ShrunkOnce(resting: seq<Resting>, events: seq<AccountEvent>, r: Resting, left: Resting, k: Resting, x: Resting)
    requires IsShrunk(resting, events, r, left, k) && IsShrunk(resting, events, r, left, x)
    ensures k == x
  {
    if q, e :| q in resting && e in events && SiblingFill(q, e, r) {
      assert k.filled == Max(left.filled, q.filled + e.qty);
    }
  }

  /** The leg rests as k, or not at all, exactly when the fills of its group say so. */
  lemma LegReads(cfg: Config, now: int, resting: seq<Resting>, s: Scan, events: seq<AccountEvent>, r: Resting, left: Resting, k: Resting)
    requires Ascending(resting) && ClaimsAre(resting, s) && StagedInOrder(s.staged) && FillsAre(cfg, now, s.staged, events)
    requires left.order == r.order && left.id == r.id
    ensures LegLeft(left, s.claims, Some(k)) <==> !Released(resting, events, r) && IsShrunk(resting, events, r, left, k)
    ensures LegLeft(left, s.claims, None) <==> Released(resting, events, r)
    ensures !Released(resting, events, r) ==> exists x :: LegLeft(left, s.claims, Some(x))
  {
    assert GroupsDiffer(s.claims);
    hide ClaimsAre, FillsAre, Ascending, StagedInOrder, LegLeft, Released, IsShrunk, GroupsDiffer;
    var out := LegIsLeft(left, s.claims);
    LegIsRead(cfg, now, resting, s, events, r, left, out);
    if out.Some? && IsShrunk(resting, events, r, left, k) { ShrunkOnce(resting, events, r, left, k, out.value); }
  }

  // ---------------------------------------------------------------- one bar

  /** The bar's events, and what each order met, as read off them. */
  ghost predicate Reads(cfg: Config, v: Venue, bar: Bar, now: int, s: Scan, events: seq<AccountEvent>) {
    && PassFates(cfg, bar, now, ScanStart(cfg, Marked(v, bar), bar), v.resting, s)
    && ClaimsAre(v.resting, s) && StagedInOrder(s.staged) && FillsAre(cfg, now, s.staged, events)
    && forall r :: r in v.resting ==> MetIn(cfg, bar, ScanStart(cfg, Marked(v, bar), bar), v.resting, s.staged, r) == MetOn(cfg, v, bar, events, r)
  }

  lemma FillsAreStaged(cfg: Config, now: int, s: Scan, fills: seq<AccountEvent>, rest: seq<AccountEvent>)
    requires |fills| == |s.staged| && forall i :: 0 <= i < |fills| ==> fills[i] == FillEvent(cfg, s.staged[i], now)
    requires (forall e :: e in s.events ==> !e.Fill?) && (forall e :: e in rest ==> !e.Fill?)
    ensures FillsAre(cfg, now, s.staged, s.events + fills + rest)
  {
    hide FeeCosts;
    var events := s.events + fills + rest;
    forall e | e in events && e.Fill? ensures exists f :: f in s.staged && e == FillEvent(cfg, f, now) {
      var i :| 0 <= i < |fills| && fills[i] == e;
      assert s.staged[i] in s.staged;
    }
    forall f | f in s.staged ensures FillEvent(cfg, f, now) in events {
      var i :| 0 <= i < |s.staged| && s.staged[i] == f;
      assert fills[i] in fills;
    }
  }

  lemma MetIsRead(cfg: Config, v: Venue, bar: Bar, now: int, s: Scan, fills: seq<AccountEvent>, rest: seq<AccountEvent>, r: Resting)
    requires |fills| == |s.staged| && forall i :: 0 <= i < |fills| ==> fills[i] == FillEvent(cfg, s.staged[i], now)
    requires (forall e :: e in s.events ==> !e.Fill?) && (forall e :: e in rest ==> !e.Fill?)
    ensures MetIn(cfg, bar, ScanStart(cfg, Marked(v, bar), bar), v.resting, s.staged, r) == MetOn(cfg, v, bar, s.events + fills + rest, r)
  {
    EventTallies(cfg, now, s, fills, rest, r.id);
    FillsAreStaged(cfg, now, s, fills, rest);
    ClaimedIsRead(cfg, now, v.resting, s.staged, s.events + fills + rest, r);
    hide Tally, ClaimedIn, ClaimedBefore, FillsAre, DrawsBefore, TruncDiv;
  }

  /** What follows the fills: canceled legs, a settlement, and a liquidation with what it cancels. */
  lemma RestIsQuiet(kept: seq<Resting>, claims: seq<Claim>, instrument: nat, now: int,
                    resolved: seq<AccountEvent>, funding: seq<AccountEvent>, closing: seq<AccountEvent>)
    requires (forall e :: e in resolved <==> CanceledOf(kept, claims, now, e)) && (forall e :: e in funding ==> e.FundingSettlement?)
    requires closing != [] ==> closing[0].Liquidation? && forall e :: e in closing[1..] <==> DroppedBy(kept, claims, instrument, now, e)
    ensures forall e :: e in resolved + funding + closing ==> !e.Fill?
    ensures forall e :: e in resolved ==> e.OrderCanceled? && e.cancel == OcoTriggered
    ensures closing != [] ==> forall e :: e in closing[1..] ==> e.OrderCanceled? && e.cancel == VenueCanceled
    ensures closing != [] ==> closing == [closing[0]] + closing[1..]
  {
    hide LegLeft, LeftOf;
    forall e | e in resolved ensures e.OrderCanceled? && e.cancel == OcoTriggered { assert CanceledOf(kept, claims, now, e); }
    if closing != [] {
      forall e | e in closing[1..] ensures e.OrderCanceled? && e.cancel == VenueCanceled { assert DroppedBy(kept, claims, instrument, now, e); }
      assert closing == [closing[0]] + closing[1..];
      hide DroppedBy;
    }
  }

  /** Who rests after the claims, and after a liquidation. */
  lemma CloseReads(kept: seq<Resting>, claims: seq<Claim>, instrument: nat, now: int, after: seq<Resting>, closing: seq<AccountEvent>)
    requires GroupsDiffer(claims)
    requires var legs := ResolveClaims(kept, claims, now).0;
             if closing == [] then after == legs else closing[0].Liquidation? && (after, closing[1..]) == DropInstrument(legs, instrument, now)
    ensures closing == [] ==> forall k :: k in after <==> LeftOf(kept, claims, k)
    ensures closing != [] ==> forall k :: k in after <==> LeftOf(kept, claims, k) && k.order.instrument != instrument
    ensures closing != [] ==> forall e :: e in closing[1..] <==> DroppedBy(kept, claims, instrument, now, e)
  {
    hide LeftOf, CanceledOf, GroupsDiffer, DropInstrument;
    ClaimsResolve(kept, claims, now);
    var legs := ResolveClaims(kept, claims, now).0;
    DroppedElements(legs, instrument, now);
    DroppedEvents(legs, instrument, now);
  }

  lemma BarReads(cfg: Config, v: Venue, bar: Bar, now: int)
    returns (s: Scan, fills: seq<AccountEvent>, resolved: seq<AccountEvent>, funding: seq<AccountEvent>, closing: seq<AccountEvent>)
    requires WellFormedBar(bar) && Ascending(v.resting) && AllSound(cfg, v.resting)
    ensures s == ScanBar(cfg, Marked(v, bar), bar, now)
    ensures |fills| == |s.staged| && forall i :: 0 <= i < |fills| ==> fills[i] == FillEvent(cfg, s.staged[i], now)
    ensures forall e :: e in s.events ==> e.OrderCanceled? || e.OrderExpired? || e.OrderTriggered?
    ensures forall e :: e in funding ==> e.FundingSettlement?
    ensures forall e :: e in resolved <==> CanceledOf(s.kept, s.claims, now, e)
    ensures var (w, events) := Observed(cfg, v, bar, now);
            && events == s.events + fills + resolved + funding + closing
            && Reads(cfg, v, bar, now, s, events)
            && (closing == [] ==> forall k :: k in w.resting <==> LeftOf(s.kept, s.claims, k))
            && (closing != [] ==>
                  && closing[0].Liquidation?
                  && (forall k :: k in w.resting <==> LeftOf(s.kept, s.claims, k) && k.order.instrument != bar.instrument)
                  && (forall e :: e in closing[1..] <==> DroppedBy(s.kept, s.claims, bar.instrument, now, e)))
  {
    hide Observed, PassFates, FillEvent, LeftOf, CanceledOf, DroppedBy, Reads, MetIn, MetOn, Ascending, AllSound, ClaimIs, HasClaim, GroupsDiffer, ScanOrders, ResolveClaims, DropInstrument;
    s, fills, resolved, funding, closing := Stages(cfg, v, bar, now);
    PassReads(cfg, v, bar, now, s);
    ClaimsResolve(s.kept, s.claims, now);
    CloseReads(s.kept, s.claims, bar.instrument, now, Observed(cfg, v, bar, now).0.resting, closing);
    RestIsQuiet(s.kept, s.claims, bar.instrument, now, resolved, funding, closing);
    EventsRead(cfg, v, bar, now, s, fills, resolved + funding + closing);
    assert s.events + fills + (resolved + funding + closing) == Observed(cfg, v, bar, now).1;
  }

  lemma PassReads(cfg: Config, v: Venue, bar: Bar, now: int, s: Scan)
    requires WellFormedBar(bar) && Ascending(v.resting) && AllSound(cfg, v.resting) && s == ScanBar(cfg, Marked(v, bar), bar, now)
    ensures PassFates(cfg, bar, now, ScanStart(cfg, Marked(v, bar), bar), v.resting, s)
    ensures ClaimsAre(v.resting, s) && StagedInOrder(s.staged) && GroupsDiffer(s.claims)
    ensures forall e :: e in s.events ==> e.OrderCanceled? || e.OrderExpired? || e.OrderTriggered?
  {
    hide ScanOrders, PassFates, AllSound, ClaimIs, HasClaim;
    var start := ScanStart(cfg, Marked(v, bar), bar);
    var bound := if v.resting == [] then 0 else v.resting[|v.resting| - 1].id + 1;
    if v.resting != [] { AscendingPrefix(v.resting); }
    PassIsFates(cfg, bar, now, v.resting, start, bound);
    MadeIsQuiet(cfg, bar, now, start, v.resting, s);
  }

  lemma EventsRead(cfg: Config, v: Venue, bar: Bar, now: int, s: Scan, fills: seq<AccountEvent>, rest: seq<AccountEvent>)
    requires PassFates(cfg, bar, now, ScanStart(cfg, Marked(v, bar), bar), v.resting, s) && ClaimsAre(v.resting, s) && StagedInOrder(s.staged)
    requires |fills| == |s.staged| && forall i :: 0 <= i < |fills| ==> fills[i] == FillEvent(cfg, s.staged[i], now)
    requires (forall e :: e in s.events ==> !e.Fill?) && (forall e :: e in rest ==> !e.Fill?)
    ensures Reads(cfg, v, bar, now, s, s.events + fills + rest)
  {
    hide PassFates, ClaimsAre, StagedInOrder, FillEvent, MetIn, MetOn, FillsAre;
    FillsAreStaged(cfg, now, s, fills, rest);
    forall r { MetIsRead(cfg, v, bar, now, s, fills, rest, r); }
  }

  /** Liquidation cancels what the claims leave on its instrument. */
  ghost predicate DroppedBy(kept: seq<Resting>, claims: seq<Claim>, instrument: nat, now: int, e: AccountEvent) {
    exists k :: LeftOf(kept, claims, k) && k.order.instrument == instrument && e == OrderCanceled(k.id, VenueCanceled, now)
  }

  /** The order stayed, and no leg of its group left it nothing. */
  ghost predicate Spared(cfg: Config, v: Venue, bar: Bar, events: seq<AccountEvent>, r: Resting) {
    Stays(cfg, r, bar, MetOn(cfg, v, bar, events, r)) && !Released(v.resting, events, r)
  }

  ghost predicate SparedAs(cfg: Config, v: Venue, bar: Bar, events: seq<AccountEvent>, r: Resting, k: Resting) {
    Spared(cfg, v, bar, events, r) && IsShrunk(v.resting, events, r, Left(cfg, r, bar, MetOn(cfg, v, bar, events, r)), k)
  }

  lemma LeftKeepsOrder(cfg: Config, r: Resting, bar: Bar, met: Met)
    ensures Left(cfg, r, bar, met).order == r.order && Left(cfg, r, bar, met).id == r.id
  {
    hide Fires, Fills;
  }

  lemma KeptReads(cfg: Config, v: Venue, bar: Bar, now: int, s: Scan, events: seq<AccountEvent>, r: Resting)
    requires Reads(cfg, v, bar, now, s, events) && r in v.resting && Stays(cfg, r, bar, MetOn(cfg, v, bar, events, r))
    ensures Left(cfg, r, bar, MetOn(cfg, v, bar, events, r)) in s.kept
  {
    hide Stays, Left, Fills, Ending, Fires, MetIn, MetOn, IsFill;
  }

  lemma KeptCameFrom(cfg: Config, v: Venue, bar: Bar, now: int, s: Scan, events: seq<AccountEvent>, k: Resting) returns (r: Resting)
    requires Reads(cfg, v, bar, now, s, events) && k in s.kept
    ensures r in v.resting && Stays(cfg, r, bar, MetOn(cfg, v, bar, events, r)) && k == Left(cfg, r, bar, MetOn(cfg, v, bar, events, r))
  {
    hide Stays, Left, MetIn, MetOn, Produced, FilledFrom, EventFrom;
    var start := ScanStart(cfg, Marked(v, bar), bar);
    assert KeptFrom(cfg, bar, start, v.resting, s, k);
    r :| r in v.resting && KeptAs(cfg, bar, r, MetIn(cfg, bar, start, v.resting, s.staged, r), k);
  }

  lemma GroupReads(cfg: Config, v: Venue, bar: Bar, now: int, s: Scan, events: seq<AccountEvent>, r: Resting, left: Resting, k: Resting)
    requires Reads(cfg, v, bar, now, s, events) && Ascending(v.resting) && left.order == r.order && left.id == r.id
    ensures LegLeft(left, s.claims, Some(k)) <==> !Released(v.resting, events, r) && IsShrunk(v.resting, events, r, left, k)
    ensures LegLeft(left, s.claims, None) <==> Released(v.resting, events, r)
    ensures !Released(v.resting, events, r) ==> exists x :: LegLeft(left, s.claims, Some(x))
  {
    hide PassFates, MetIn, MetOn, ClaimsAre, StagedInOrder, FillsAre, LegLeft, Released, IsShrunk, Ascending;
    LegReads(cfg, now, v.resting, s, events, r, left, k);
  }

  ghost predicate SparedIn(cfg: Config, v: Venue, bar: Bar, events: seq<AccountEvent>, k: Resting) {
    exists r :: r in v.resting && SparedAs(cfg, v, bar, events, r, k)
  }

  lemma SparedIsLeft(cfg: Config, v: Venue, bar: Bar, now: int, s: Scan, events: seq<AccountEvent>, k: Resting)
    requires Reads(cfg, v, bar, now, s, events) && Ascending(v.resting)
    ensures LeftOf(s.kept, s.claims, k) <==> SparedIn(cfg, v, bar, events, k)
  {
    hide Reads, Stays, Left, MetOn, Released, IsShrunk, LegLeft, Ascending;
    if LeftOf(s.kept, s.claims, k) {
      var left :| left in s.kept && LegLeft(left, s.claims, Some(k));
      var r := KeptCameFrom(cfg, v, bar, now, s, events, left);
      LeftKeepsOrder(cfg, r, bar, MetOn(cfg, v, bar, events, r));
      GroupReads(cfg, v, bar, now, s, events, r, left, k);
      assert SparedAs(cfg, v, bar, events, r, k);
    }
    if SparedIn(cfg, v, bar, events, k) {
      var r :| r in v.resting && SparedAs(cfg, v, bar, events, r, k);
      KeptReads(cfg, v, bar, now, s, events, r);
      LeftKeepsOrder(cfg, r, bar, MetOn(cfg, v, bar, events, r));
      GroupReads(cfg, v, bar, now, s, events, r, Left(cfg, r, bar, MetOn(cfg, v, bar, events, r)), k);
    }
  }

  /** A spared order is left as something. */
  lemma SparedIsListed(cfg: Config, v: Venue, bar: Bar, now: int, s: Scan, events: seq<AccountEvent>, r: Resting) returns (k: Resting)
    requires Reads(cfg, v, bar, now, s, events) && Ascending(v.resting) && r in v.resting && Spared(cfg, v, bar, events, r)
    ensures LeftOf(s.kept, s.claims, k) && k.id == r.id && k.order == r.order
  {
    hide Reads, Stays, Left, MetOn, Released, LegLeft, Ascending;
    var left := Left(cfg, r, bar, MetOn(cfg, v, bar, events, r));
    KeptReads(cfg, v, bar, now, s, events, r);
    LeftKeepsOrder(cfg, r, bar, MetOn(cfg, v, bar, events, r));
    GroupReads(cfg, v, bar, now, s, events, r, left, left);
    k :| LegLeft(left, s.claims, Some(k));
    GroupReads(cfg, v, bar, now, s, events, r, left, k);
  }

  /** The order rests on after the bar: spared, and its instrument not liquidated. */
  ghost predicate RestsOn(cfg: Config, v: Venue, bar: Bar, events: seq<AccountEvent>, r: Resting) {
    Spared(cfg, v, bar, events, r) && !(Liquidated(events) && r.order.instrument == bar.instrument)
  }

  /** It rests on as k. */
  ghost predicate RestsAs(cfg: Config, v: Venue, bar: Bar, events: seq<AccountEvent>, r: Resting, k: Resting) {
    RestsOn(cfg, v, bar, events, r) && SparedAs(cfg, v, bar, events, r, k)
  }

  ghost predicate RestsFrom(cfg: Config, v: Venue, bar: Bar, events: seq<AccountEvent>, k: Resting) {
    exists r :: r in v.resting && RestsAs(cfg, v, bar, events, r, k)
  }

  ghost predicate OnBook(resting: seq<Resting>, id: nat) {
    exists k :: k in resting && k.id == id
  }

  lemma LiquidationIsRead(s: Scan, fills: seq<AccountEvent>, resolved: seq<AccountEvent>, funding: seq<AccountEvent>, closing: seq<AccountEvent>)
    requires forall e :: e in s.events ==> !e.Liquidation?
    requires forall e :: e in fills ==> !e.Liquidation?
    requires forall e :: e in resolved ==> !e.Liquidation?
    requires forall e :: e in funding ==> !e.Liquidation?
    requires closing != [] ==> closing[0].Liquidation?
    ensures Liquidated(s.events + fills + resolved + funding + closing) <==> closing != []
  {
    var events := s.events + fills + resolved + funding + closing;
    if closing != [] {
      assert closing[0] in closing;
      assert closing[0] in events;
    }
  }

  /** Where an order event of a bar comes from. */
  ghost predicate Emitted(cfg: Config, s: Scan, bar: Bar, now: int, liquidated: bool, e: AccountEvent) {
    || e in s.events || StagedAs(cfg, s.staged, now, e)
    || CanceledOf(s.kept, s.claims, now, e) || (liquidated && DroppedBy(s.kept, s.claims, bar.instrument, now, e))
  }

  ghost predicate StagedAs(cfg: Config, staged: seq<Staged>, now: int, e: AccountEvent) {
    exists f :: f in staged && e == FillEvent(cfg, f, now)
  }

  lemma FillsEmitted(cfg: Config, now: int, staged: seq<Staged>, fills: seq<AccountEvent>)
    requires |fills| == |staged| && forall i :: 0 <= i < |fills| ==> fills[i] == FillEvent(cfg, staged[i], now)
    ensures forall e :: e in fills <==> StagedAs(cfg, staged, now, e)
    ensures forall e :: e in fills ==> e.Fill?
  {
    hide FeeCosts;
    forall e ensures e in fills <==> StagedAs(cfg, staged, now, e) {
      if e in fills {
        var i :| 0 <= i < |fills| && fills[i] == e;
        assert staged[i] in staged;
      }
      if StagedAs(cfg, staged, now, e) {
        var f :| f in staged && e == FillEvent(cfg, f, now);
        var i :| 0 <= i < |staged| && staged[i] == f;
        assert fills[i] in fills;
      }
    }
  }

  lemma EventsEmitted(cfg: Config, s: Scan, bar: Bar, now: int, fills: seq<AccountEvent>, resolved: seq<AccountEvent>,
                      funding: seq<AccountEvent>, closing: seq<AccountEvent>)
    requires forall e :: e in fills <==> StagedAs(cfg, s.staged, now, e)
    requires forall e :: e in resolved <==> CanceledOf(s.kept, s.claims, now, e)
    requires forall e :: e in funding ==> e.FundingSettlement?
    requires closing != [] ==> closing[0].Liquidation? && forall e :: e in closing[1..] <==> DroppedBy(s.kept, s.claims, bar.instrument, now, e)
    ensures var events := s.events + fills + resolved + funding + closing;
            && (forall e :: Emitted(cfg, s, bar, now, closing != [], e) ==> e in events)
            && (forall e :: e in events ==> Emitted(cfg, s, bar, now, closing != [], e) || e.FundingSettlement? || e.Liquidation?)
  {
    hide StagedAs, CanceledOf, DroppedBy;
    if closing != [] { assert closing == [closing[0]] + closing[1..]; }
  }

  /** What follows the pass, with everything it rests on read off the events. */
  lemma AfterReads(cfg: Config, v: Venue, bar: Bar, now: int) returns (s: Scan)
    requires WellFormedBar(bar) && Ascending(v.resting) && AllSound(cfg, v.resting)
    ensures var (w, events) := Observed(cfg, v, bar, now);
            && Reads(cfg, v, bar, now, s, events)
            && (forall e :: e in s.events ==> e.OrderCanceled? || e.OrderExpired? || e.OrderTriggered?)
            && (forall k :: k in w.resting <==>
                  LeftOf(s.kept, s.claims, k) && !(Liquidated(events) && k.order.instrument == bar.instrument))
            && (forall e :: Emitted(cfg, s, bar, now, Liquidated(events), e) ==> e in events)
            && (forall e :: e in events ==> Emitted(cfg, s, bar, now, Liquidated(events), e) || e.FundingSettlement? || e.Liquidation?)
  {
    hide Observed, Reads, FillEvent, LeftOf, CanceledOf, DroppedBy, ScanBar, Ascending, AllSound, Emitted, StagedAs, Liquidated;
    var fills, resolved, funding, closing;
    s, fills, resolved, funding, closing := BarReads(cfg, v, bar, now);
    FillsEmitted(cfg, now, s.staged, fills);
    RestIsQuiet(s.kept, s.claims, bar.instrument, now, resolved, funding, closing);
    LiquidationIsRead(s, fills, resolved, funding, closing);
    EventsEmitted(cfg, s, bar, now, fills, resolved, funding, closing);
  }

  /** After a bar the book holds exactly the orders that rest on, each as the bar left it. */
  lemma RestsExactlyWhen(cfg: Config, v: Venue, bar: Bar, now: int)
    requires WellFormedBar(bar) && Ascending(v.resting) && AllSound(cfg, v.resting)
    ensures var (w, events) := Observed(cfg, v, bar, now);
            && (forall k :: k in w.resting <==> RestsFrom(cfg, v, bar, events, k))
            && (forall r :: r in v.resting && RestsOn(cfg, v, bar, events, r) ==> OnBook(w.resting, r.id))
  {
    hide Observed, Reads, Emitted, LeftOf, SparedAs, Spared, Liquidated, Ascending, AllSound;
    var s := AfterReads(cfg, v, bar, now);
    var (w, events) := Observed(cfg, v, bar, now);
    forall k ensures k in w.resting <==> RestsFrom(cfg, v, bar, events, k) {
      SparedIsLeft(cfg, v, bar, now, s, events, k);
      SparedRests(cfg, v, bar, events, k);
    }
    forall r | r in v.resting && RestsOn(cfg, v, bar, events, r) ensures OnBook(w.resting, r.id) {
      var k := SparedIsListed(cfg, v, bar, now, s, events, r);
    }
  }

  lemma SparedRests(cfg: Config, v: Venue, bar: Bar, events: seq<AccountEvent>, k: Resting)
    ensures RestsFrom(cfg, v, bar, events, k)
            <==> SparedIn(cfg, v, bar, events, k) && !(Liquidated(events) && k.order.instrument == bar.instrument)
  {
    hide Spared, Liquidated;
    if SparedIn(cfg, v, bar, events, k) {
      var r :| r in v.resting && SparedAs(cfg, v, bar, events, r, k);
      SparedKeepsOrder(cfg, v, bar, events, r, k);
    }
    if RestsFrom(cfg, v, bar, events, k) {
      var r :| r in v.resting && RestsAs(cfg, v, bar, events, r, k);
      SparedKeepsOrder(cfg, v, bar, events, r, k);
    }
  }

  lemma SparedKeepsOrder(cfg: Config, v: Venue, bar: Bar, events: seq<AccountEvent>, r: Resting, k: Resting)
    requires SparedAs(cfg, v, bar, events, r, k)
    ensures Spared(cfg, v, bar, events, r) && k.order == r.order && k.id == r.id
  {
    LeftKeepsOrder(cfg, r, bar, MetOn(cfg, v, bar, events, r));
    hide Spared, MetOn, Left;
  }

  // ---------------------------------------------------------------- fills

  /** The event of the order's fill: as much as it may take, at the price its terms give it. */
  ghost predicate IsFillEvent(cfg: Config, r: Resting, bar: Bar, now: int, met: Met, e: AccountEvent) {
    && e.Fill? && e.id == r.id && e.instrument == r.order.instrument && e.side == r.order.side
    && e.qty == SizeOf(r, met) && e.complete == Finishes(r, met) && e.ts == now
    && IsPrice(cfg, r, bar, e.qty, e.price) && IsFee(cfg, e.costs, e.price * e.qty)
  }

  ghost predicate FillFrom(cfg: Config, v: Venue, bar: Bar, now: int, events: seq<AccountEvent>, e: AccountEvent) {
    exists r :: r in v.resting && FillsAs(cfg, v, bar, now, events, r, e)
  }

  ghost predicate FillsAs(cfg: Config, v: Venue, bar: Bar, now: int, events: seq<AccountEvent>, r: Resting, e: AccountEvent) {
    var met := MetOn(cfg, v, bar, events, r);
    Fills(cfg, r, bar, met) && IsFillEvent(cfg, r, bar, now, met, e)
  }

  lemma StagedFillIs(cfg: Config, v: Venue, bar: Bar, now: int, s: Scan, events: seq<AccountEvent>, f: Staged)
    requires Reads(cfg, v, bar, now, s, events) && f in s.staged && AllSound(cfg, v.resting)
    ensures FillFrom(cfg, v, bar, now, events, FillEvent(cfg, f, now))
  {
    hide MetIn, MetOn, Fills, IsPrice, SizeOf, Finishes, Produced, KeptFrom, EventFrom, IsFee, FeeCosts;
    var start := ScanStart(cfg, Marked(v, bar), bar);
    assert FilledFrom(cfg, bar, start, v.resting, s, f);
    var r :| r in v.resting && FilledAs(cfg, bar, r, MetIn(cfg, bar, start, v.resting, s.staged, r), f);
    FeeIsExact(cfg, f.instrument, f.price, f.qty);
    assert FillsAs(cfg, v, bar, now, events, r, FillEvent(cfg, f, now));
  }

  lemma FillIsStaged(cfg: Config, v: Venue, bar: Bar, now: int, s: Scan, events: seq<AccountEvent>, r: Resting) returns (f: Staged)
    requires Reads(cfg, v, bar, now, s, events) && r in v.resting && Fills(cfg, r, bar, MetOn(cfg, v, bar, events, r))
    ensures f in s.staged && f.id == r.id
  {
    hide MetIn, MetOn, Fills, IsPrice, SizeOf, Finishes, KeptFrom, FilledFrom, EventFrom, Stays, Left, Ending, Fires;
    var met := MetIn(cfg, bar, ScanStart(cfg, Marked(v, bar), bar), v.resting, s.staged, r);
    assert Produced(cfg, bar, now, r, met, s);
    f :| f in s.staged && IsFill(cfg, r, bar, met, f);
  }

  ghost predicate HasFill(events: seq<AccountEvent>, id: nat) {
    exists e :: e in events && e.Fill? && e.id == id
  }

  /** At most one fill an order, in the order of their ids. */
  ghost predicate FillsInOrder(events: seq<AccountEvent>) {
    forall i, j :: 0 <= i < j < |events| && events[i].Fill? && events[j].Fill? ==> events[i].id < events[j].id
  }

  lemma StagedFillsInOrder(cfg: Config, now: int, staged: seq<Staged>, before: seq<AccountEvent>, fills: seq<AccountEvent>, after: seq<AccountEvent>)
    requires |fills| == |staged| && forall i :: 0 <= i < |fills| ==> fills[i] == FillEvent(cfg, staged[i], now)
    requires StagedInOrder(staged) && (forall e :: e in before ==> !e.Fill?) && (forall e :: e in after ==> !e.Fill?)
    ensures FillsInOrder(before + fills + after)
  {
    hide FeeCosts;
    var events := before + fills + after;
    forall i, j | 0 <= i < j < |events| && events[i].Fill? && events[j].Fill? ensures events[i].id < events[j].id {
      FillsInTheMiddle(before, fills, after, i);
      FillsInTheMiddle(before, fills, after, j);
    }
  }

  lemma FillsInTheMiddle(before: seq<AccountEvent>, fills: seq<AccountEvent>, after: seq<AccountEvent>, i: nat)
    requires i < |before + fills + after|
    requires (forall e :: e in before ==> !e.Fill?) && (forall e :: e in after ==> !e.Fill?)
    ensures (before + fills + after)[i].Fill? ==> |before| <= i < |before| + |fills| && (before + fills + after)[i] == fills[i - |before|]
  {
    var events := before + fills + after;
    assert i < |before| ==> events[i] in before;
    assert i >= |before| + |fills| ==> events[i] in after;
  }

  lemma FillsAreInOrder(cfg: Config, v: Venue, bar: Bar, now: int)
    requires WellFormedBar(bar) && Ascending(v.resting) && AllSound(cfg, v.resting)
    ensures FillsInOrder(Observed(cfg, v, bar, now).1)
  {
    hide Observed, PassFates, ClaimsAre, FillsAre, MetIn, MetOn, FillEvent, LeftOf, CanceledOf, DroppedBy, ScanBar, Ascending, AllSound, FillsInOrder;
    var s, fills, resolved, funding, closing := BarReads(cfg, v, bar, now);
    RestIsQuiet(s.kept, s.claims, bar.instrument, now, resolved, funding, closing);
    StagedFillsInOrder(cfg, now, s.staged, s.events, fills, resolved + funding + closing);
    assert s.events + fills + (resolved + funding + closing) == Observed(cfg, v, bar, now).1;
  }

  /**
   * On a bar exactly those orders fill whose price the bar touches and whose turn leaves them volume,
   * position and group; each once, in the order of their ids, of all it may take, and at the exact
   * price and fee.
   */
  lemma FillsExactlyWhen(cfg: Config, v: Venue, bar: Bar, now: int)
    requires WellFormedBar(bar) && Ascending(v.resting) && AllSound(cfg, v.resting)
    ensures var events := Observed(cfg, v, bar, now).1;
            && (forall e :: e in events && e.Fill? ==> FillFrom(cfg, v, bar, now, events, e))
            && (forall r :: r in v.resting && Fills(cfg, r, bar, MetOn(cfg, v, bar, events, r)) ==> HasFill(events, r.id))
            && FillsInOrder(events)
  {
    hide Observed, Reads, FillFrom, MetOn, Fills, CanceledOf, DroppedBy, LeftOf, Ascending, AllSound, Liquidated, FillsInOrder;
    FillsAreInOrder(cfg, v, bar, now);
    var s := AfterReads(cfg, v, bar, now);
    var events := Observed(cfg, v, bar, now).1;
    forall e | e in events && e.Fill? ensures FillFrom(cfg, v, bar, now, events, e) {
      FillIsEmitted(cfg, s, bar, now, Liquidated(events), e);
      var f :| f in s.staged && e == FillEvent(cfg, f, now);
      StagedFillIs(cfg, v, bar, now, s, events, f);
    }
    forall r | r in v.resting && Fills(cfg, r, bar, MetOn(cfg, v, bar, events, r)) ensures HasFill(events, r.id) {
      var f := FillIsStaged(cfg, v, bar, now, s, events, r);
      assert StagedAs(cfg, s.staged, now, FillEvent(cfg, f, now));
    }
  }

  lemma FillIsEmitted(cfg: Config, s: Scan, bar: Bar, now: int, liquidated: bool, e: AccountEvent)
    requires Emitted(cfg, s, bar, now, liquidated, e) && e.Fill? && forall x :: x in s.events ==> !x.Fill?
    ensures StagedAs(cfg, s.staged, now, e)
  {
    hide StagedAs, LeftOf, LegLeft;
  }

  // ---------------------------------------------------------------- orders that end

  /** Why the bar cancels the order. */
  ghost predicate CanceledFor(cfg: Config, v: Venue, bar: Bar, events: seq<AccountEvent>, r: Resting, reason: CancelReason) {
    var met := MetOn(cfg, v, bar, events, r);
    match reason
    case OcoTriggered => Beaten(cfg, r, bar, met) || (Stays(cfg, r, bar, met) && Released(v.resting, events, r))
    case VenueCanceled =>
      || Refused(r, bar) || Useless(cfg, r, bar, met)
      || (Spared(cfg, v, bar, events, r) && Liquidated(events) && r.order.instrument == bar.instrument)
    case Requested => false
  }

  /** The order's own event, and nothing else the bar reports of it beside its fill. */
  ghost predicate Reported(cfg: Config, v: Venue, bar: Bar, now: int, events: seq<AccountEvent>, r: Resting, e: AccountEvent) {
    match e
    case OrderExpired(id, ts) => id == r.id && ts == now && Expires(cfg, r, bar, MetOn(cfg, v, bar, events, r))
    case OrderTriggered(id, ts) => id == r.id && ts == now && Fires(cfg, r, bar, MetOn(cfg, v, bar, events, r))
    case OrderCanceled(id, reason, ts) => id == r.id && ts == now && CanceledFor(cfg, v, bar, events, r, reason)
    case _ => false
  }

  ghost predicate ReportedOf(cfg: Config, v: Venue, bar: Bar, now: int, events: seq<AccountEvent>, e: AccountEvent) {
    exists r :: r in v.resting && Reported(cfg, v, bar, now, events, r, e)
  }

  ghost predicate MadeOf(cfg: Config, v: Venue, bar: Bar, now: int, events: seq<AccountEvent>, e: AccountEvent) {
    exists r :: r in v.resting && MadeBy(cfg, bar, now, r, MetOn(cfg, v, bar, events, r), e)
  }

  lemma PassIsMade(cfg: Config, v: Venue, bar: Bar, now: int, s: Scan, events: seq<AccountEvent>, e: AccountEvent)
    requires Reads(cfg, v, bar, now, s, events)
    ensures e in s.events <==> MadeOf(cfg, v, bar, now, events, e)
  {
    hide MetIn, MetOn, Stays, Left, Fills, IsFill, Fires, Ending, KeptFrom, FilledFrom;
    var start := ScanStart(cfg, Marked(v, bar), bar);
    if e in s.events {
      assert EventFrom(cfg, bar, now, start, v.resting, s, e);
      var r :| r in v.resting && MadeBy(cfg, bar, now, r, MetIn(cfg, bar, start, v.resting, s.staged, r), e);
    }
    if MadeOf(cfg, v, bar, now, events, e) {
      var r :| r in v.resting && MadeBy(cfg, bar, now, r, MetOn(cfg, v, bar, events, r), e);
      assert Produced(cfg, bar, now, r, MetIn(cfg, bar, start, v.resting, s.staged, r), s);
    }
  }

  ghost predicate ReleasedOf(cfg: Config, v: Venue, bar: Bar, now: int, events: seq<AccountEvent>, e: AccountEvent) {
    exists r :: r in v.resting && Stays(cfg, r, bar, MetOn(cfg, v, bar, events, r)) && Released(v.resting, events, r)
                && e == OrderCanceled(r.id, OcoTriggered, now)
  }

  lemma CanceledIsReleased(cfg: Config, v: Venue, bar: Bar, now: int, s: Scan, events: seq<AccountEvent>, e: AccountEvent)
    requires Reads(cfg, v, bar, now, s, events) && Ascending(v.resting)
    ensures CanceledOf(s.kept, s.claims, now, e) <==> ReleasedOf(cfg, v, bar, now, events, e)
  {
    hide Reads, Stays, Left, MetOn, Released, LegLeft, Ascending, IsShrunk;
    if CanceledOf(s.kept, s.claims, now, e) {
      var left :| left in s.kept && LegLeft(left, s.claims, None) && e == OrderCanceled(left.id, OcoTriggered, now);
      var r := KeptCameFrom(cfg, v, bar, now, s, events, left);
      LeftKeepsOrder(cfg, r, bar, MetOn(cfg, v, bar, events, r));
      GroupReads(cfg, v, bar, now, s, events, r, left, left);
    }
    if ReleasedOf(cfg, v, bar, now, events, e) {
      var r :| r in v.resting && Stays(cfg, r, bar, MetOn(cfg, v, bar, events, r)) && Released(v.resting, events, r)
               && e == OrderCanceled(r.id, OcoTriggered, now);
      KeptReads(cfg, v, bar, now, s, events, r);
      var left := Left(cfg, r, bar, MetOn(cfg, v, bar, events, r));
      LeftKeepsOrder(cfg, r, bar, MetOn(cfg, v, bar, events, r));
      GroupReads(cfg, v, bar, now, s, events, r, left, left);
    }
  }

  ghost predicate DroppedOf(cfg: Config, v: Venue, bar: Bar, now: int, events: seq<AccountEvent>, e: AccountEvent) {
    exists r :: r in v.resting && Spared(cfg, v, bar, events, r) && r.order.instrument == bar.instrument
                && e == OrderCanceled(r.id, VenueCanceled, now)
  }

  lemma DroppedIsSpared(cfg: Config, v: Venue, bar: Bar, now: int, s: Scan, events: seq<AccountEvent>, e: AccountEvent)
    requires Reads(cfg, v, bar, now, s, events) && Ascending(v.resting)
    ensures DroppedBy(s.kept, s.claims, bar.instrument, now, e) <==> DroppedOf(cfg, v, bar, now, events, e)
  {
    hide Reads, Spared, SparedAs, Ascending, LeftOf;
    if DroppedBy(s.kept, s.claims, bar.instrument, now, e) {
      var k :| LeftOf(s.kept, s.claims, k) && k.order.instrument == bar.instrument && e == OrderCanceled(k.id, VenueCanceled, now);
      SparedIsLeft(cfg, v, bar, now, s, events, k);
      var r :| r in v.resting && SparedAs(cfg, v, bar, events, r, k);
      SparedKeepsOrder(cfg, v, bar, events, r, k);
    }
    if DroppedOf(cfg, v, bar, now, events, e) {
      var r :| r in v.resting && Spared(cfg, v, bar, events, r) && r.order.instrument == bar.instrument && e == OrderCanceled(r.id, VenueCanceled, now);
      var k := SparedIsListed(cfg, v, bar, now, s, events, r);
    }
  }

  /** What the pass and what follows it say of the order is what it is told. */
  lemma ReportedParts(cfg: Config, v: Venue, bar: Bar, now: int, events: seq<AccountEvent>, r: Resting, e: AccountEvent)
    ensures Reported(cfg, v, bar, now, events, r, e)
            <==> || MadeBy(cfg, bar, now, r, MetOn(cfg, v, bar, events, r), e)
                 || (Stays(cfg, r, bar, MetOn(cfg, v, bar, events, r)) && Released(v.resting, events, r) && e == OrderCanceled(r.id, OcoTriggered, now))
                 || (Spared(cfg, v, bar, events, r) && Liquidated(events) && r.order.instrument == bar.instrument
                     && e == OrderCanceled(r.id, VenueCanceled, now))
  {
    EndsApart(cfg, r, bar, MetOn(cfg, v, bar, events, r));
    hide MetOn, Refused, Useless, Beaten, Expires, Fires, Stays, Spared, Released, Liquidated;
  }

  /** No order has two endings. */
  lemma EndsApart(cfg: Config, r: Resting, bar: Bar, met: Met)
    ensures Beaten(cfg, r, bar, met) ==> !Refused(r, bar) && !Useless(cfg, r, bar, met)
    ensures Expires(cfg, r, bar, met) ==> !Refused(r, bar) && !Useless(cfg, r, bar, met) && !Beaten(cfg, r, bar, met)
  {
    hide TakesAtOnce, Missed, Awake, FillsUp;
  }

  /** Beside fills, settlements and a liquidation, a bar reports exactly the orders that trigger, expire or are canceled, each for its reason. */
  lemma EndsExactlyWhen(cfg: Config, v: Venue, bar: Bar, now: int)
    requires WellFormedBar(bar) && Ascending(v.resting) && AllSound(cfg, v.resting)
    ensures var events := Observed(cfg, v, bar, now).1;
            forall e :: (e in events && !e.Fill? && !e.FundingSettlement? && !e.Liquidation?) <==> ReportedOf(cfg, v, bar, now, events, e)
  {
    hide Observed, Reads, CanceledOf, DroppedBy, LeftOf, Ascending, AllSound, Liquidated, StagedAs, Emitted, ReportedOf;
    var s := AfterReads(cfg, v, bar, now);
    var events := Observed(cfg, v, bar, now).1;
    forall e ensures (e in events && !e.Fill? && !e.FundingSettlement? && !e.Liquidation?) <==> ReportedOf(cfg, v, bar, now, events, e) {
      ReportedIsEmitted(cfg, v, bar, now, s, events, e);
    }
  }

  lemma ReportedOfParts(cfg: Config, v: Venue, bar: Bar, now: int, events: seq<AccountEvent>, e: AccountEvent)
    ensures ReportedOf(cfg, v, bar, now, events, e)
            <==> MadeOf(cfg, v, bar, now, events, e) || ReleasedOf(cfg, v, bar, now, events, e)
                 || (Liquidated(events) && DroppedOf(cfg, v, bar, now, events, e))
  {
    hide Reported, MadeBy, Stays, Released, Spared, MetOn, Liquidated;
    if ReportedOf(cfg, v, bar, now, events, e) {
      var r :| r in v.resting && Reported(cfg, v, bar, now, events, r, e);
      ReportedParts(cfg, v, bar, now, events, r, e);
    }
    if r :| r in v.resting && MadeBy(cfg, bar, now, r, MetOn(cfg, v, bar, events, r), e) {
      ReportedParts(cfg, v, bar, now, events, r, e);
    }
    if r :| r in v.resting && Stays(cfg, r, bar, MetOn(cfg, v, bar, events, r)) && Released(v.resting, events, r)
            && e == OrderCanceled(r.id, OcoTriggered, now) {
      ReportedParts(cfg, v, bar, now, events, r, e);
    }
    if r :| r in v.resting && Spared(cfg, v, bar, events, r) && r.order.instrument == bar.instrument && e == OrderCanceled(r.id, VenueCanceled, now) {
      ReportedParts(cfg, v, bar, now, events, r, e);
    }
  }

  lemma ReportedIsEmitted(cfg: Config, v: Venue, bar: Bar, now: int, s: Scan, events: seq<AccountEvent>, e: AccountEvent)
    requires Reads(cfg, v, bar, now, s, events) && Ascending(v.resting)
    requires forall x :: x in s.events ==> x.OrderCanceled? || x.OrderExpired? || x.OrderTriggered?
    ensures Emitted(cfg, s, bar, now, Liquidated(events), e) && !e.Fill? && !e.FundingSettlement? && !e.Liquidation?
            <==> ReportedOf(cfg, v, bar, now, events, e)
  {
    hide Reads, CanceledOf, DroppedBy, Ascending, Liquidated, StagedAs, Reported, MadeOf, ReleasedOf, DroppedOf, Spared, MetOn;
    PassIsMade(cfg, v, bar, now, s, events, e);
    CanceledIsReleased(cfg, v, bar, now, s, events, e);
    DroppedIsSpared(cfg, v, bar, now, s, events, e);
    StagedIsFill(cfg, s.staged, now, e);
    ReportedOfParts(cfg, v, bar, now, events, e);
    if r :| r in v.resting && Reported(cfg, v, bar, now, events, r, e) { ReportedKinds(cfg, v, bar, now, events, r, e); }
    CanceledKinds(s.kept, s.claims, bar.instrument, now, e);
  }

  lemma CanceledKinds(kept: seq<Resting>, claims: seq<Claim>, instrument: nat, now: int, e: AccountEvent)
    ensures CanceledOf(kept, claims, now, e) || DroppedBy(kept, claims, instrument, now, e) ==> e.OrderCanceled?
  {
    hide LegLeft, LeftOf;
  }

  lemma StagedIsFill(cfg: Config, staged: seq<Staged>, now: int, e: AccountEvent)
    ensures StagedAs(cfg, staged, now, e) ==> e.Fill?
  {
    hide FeeCosts;
  }

  lemma ReportedKinds(cfg: Config, v: Venue, bar: Bar, now: int, events: seq<AccountEvent>, r: Resting, e: AccountEvent)
    requires Reported(cfg, v, bar, now, events, r, e)
    ensures e.OrderExpired? || e.OrderTriggered? || e.OrderCanceled?
  {
  }
}
