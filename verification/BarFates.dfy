/**
 * One bar for all resting orders at once. Each order meets what the fills of the orders before it
 * leave, and from that follow exactly which orders fill, at what size and price, which of them still
 * rest afterwards, and which event ends each of the others and why.
 */
module BarFates {
  import opened Prelude
  import opened Trading
  import opened Exchange
  import opened Lifecycle
  import opened FillSafety
  import opened OrderFate

  // ---------------------------------------------------------------- the pass

  function QtyBefore(id: nat): Staged -> int {
    (f: Staged) => if f.id < id then f.qty else 0
  }

  function SignedBefore(id: nat): Staged -> int {
    (f: Staged) => if f.id < id then f.side.Sign() * f.qty else 0
  }

  /** How many orders before this id draw for a touch of their limit. */
  ghost function DrawsBefore(cfg: Config, bar: Bar, pending: seq<Resting>, id: nat): nat {
    if pending == [] then
      0
    else
      var q := pending[|pending| - 1];
      DrawsBefore(cfg, bar, pending[..|pending| - 1], id) + One(q.id < id && Uncertain(cfg, q, bar))
  }

  lemma DrawsPush(cfg: Config, bar: Bar, pending: seq<Resting>, last: Resting, id: nat)
    ensures DrawsBefore(cfg, bar, pending + [last], id) == DrawsBefore(cfg, bar, pending, id) + One(last.id < id && Uncertain(cfg, last, bar))
  {
    hide Uncertain;
    assert (pending + [last])[..|pending|] == pending;
  }

  lemma {:induction false} DrawsOfAll(cfg: Config, bar: Bar, pending: seq<Resting>, id: nat, more: nat)
    requires Below(pending, id) && id <= more
    ensures DrawsBefore(cfg, bar, pending, id) == DrawsBefore(cfg, bar, pending, more)
  {
    hide Uncertain;
    if pending != [] {
      assert pending == pending[..|pending| - 1] + [pending[|pending| - 1]];
      DrawsOfAll(cfg, bar, pending[..|pending| - 1], id, more);
    }
  }

  /** A leg of the order's group that comes before it has a fill staged. */
  ghost predicate ClaimedIn(pending: seq<Resting>, staged: seq<Staged>, r: Resting) {
    exists q, f :: q in pending && f in staged && StagedLeg(q, f, r) && q.id < r.id
  }

  predicate StagedLeg(q: Resting, f: Staged, r: Resting) {
    f.id == q.id && r.order.group.Some? && q.order.group == r.order.group
  }

  ghost function MetIn(cfg: Config, bar: Bar, start: Scan, pending: seq<Resting>, staged: seq<Staged>, r: Resting): Met {
    Met(if start.cap.Some? then Some(start.cap.value - Tally(staged, QtyBefore(r.id))) else None,
        start.net + Tally(staged, SignedBefore(r.id)),
        ClaimedIn(pending, staged, r),
        start.drawn + DrawsBefore(cfg, bar, pending, r.id))
  }

  /** The claims record, for each group that filled, the leg that did and how far it got. */
  ghost predicate ClaimsAre(pending: seq<Resting>, s: Scan) {
    && (forall c :: c in s.claims ==> ClaimIs(pending, s.staged, c))
    && (forall q, f :: q in pending && f in s.staged && f.id == q.id && q.order.group.Some? ==> HasClaim(s.claims, q))
    && (forall i, j :: 0 <= i < j < |s.claims| ==> s.claims[i].group != s.claims[j].group)
  }

  ghost predicate ClaimIs(pending: seq<Resting>, staged: seq<Staged>, c: Claim) {
    exists q, f :: q in pending && f in staged && ClaimFrom(q, f, c)
  }

  predicate ClaimFrom(q: Resting, f: Staged, c: Claim) {
    && f.id == q.id == c.keeper && q.order.group == Some(c.group)
    && c.filled == q.filled + f.qty && c.complete == f.complete
  }

  ghost predicate HasClaim(claims: seq<Claim>, q: Resting) {
    exists c :: c in claims && q.order.group == Some(c.group) && c.keeper == q.id
  }

  ghost predicate StagedFrom(pending: seq<Resting>, f: Staged) {
    exists q :: q in pending && f.id == q.id
  }

  /** What the pass carries is what the orders so far have taken. */
  ghost predicate Context(cfg: Config, bar: Bar, start: Scan, pending: seq<Resting>, bound: nat, s: Scan) {
    && Below(pending, bound)
    && s.cap == (if start.cap.Some? then Some(start.cap.value - Tally(s.staged, QtyOf())) else None)
    && s.net == start.net + Tally(s.staged, SignedOf())
    && s.drawn == start.drawn + DrawsBefore(cfg, bar, pending, bound)
    && ClaimsAre(pending, s)
    && (forall f :: f in s.staged ==> StagedFrom(pending, f))
    && StagedInOrder(s.staged)
  }

  /** Fills are staged in the order of the orders' ids, at most one an order. */
  ghost predicate StagedInOrder(staged: seq<Staged>) {
    forall i, j :: 0 <= i < j < |staged| ==> staged[i].id < staged[j].id
  }

  lemma {:induction false} TallyBefore(staged: seq<Staged>, id: nat)
    requires forall f :: f in staged ==> f.id < id
    ensures Tally(staged, QtyBefore(id)) == Tally(staged, QtyOf()) && Tally(staged, SignedBefore(id)) == Tally(staged, SignedOf())
  {
    TallyCongruent(staged, QtyBefore(id), QtyOf());
    TallyCongruent(staged, SignedBefore(id), SignedOf());
  }

  lemma StagedBelow(pending: seq<Resting>, staged: seq<Staged>, bound: nat)
    requires Below(pending, bound) && forall f :: f in staged ==> StagedFrom(pending, f)
    ensures forall f :: f in staged ==> f.id < bound
  {
    forall f | f in staged ensures f.id < bound {
      assert StagedFrom(pending, f);
    }
  }

  /** The order met at its turn what those before it took. */
  lemma ContextIsMet(cfg: Config, bar: Bar, start: Scan, pending: seq<Resting>, s: Scan, r: Resting)
    requires Context(cfg, bar, start, pending, r.id, s)
    ensures MetAt(s, r) == MetIn(cfg, bar, start, pending, s.staged, r)
  {
    hide Uncertain, Tally, ClaimsAre, ClaimedIn, ClaimedByOther, DrawsBefore, Below, StagedFrom;
    StagedBelow(pending, s.staged, r.id);
    TallyBefore(s.staged, r.id);
    ClaimedIsClaimedIn(pending, s, r);
  }

  lemma ClaimedIsClaimedIn(pending: seq<Resting>, s: Scan, r: Resting)
    requires ClaimsAre(pending, s) && Below(pending, r.id)
    ensures ClaimedByOther(s.claims, r.order, r.id) <==> ClaimedIn(pending, s.staged, r)
  {
    if ClaimedByOther(s.claims, r.order, r.id) { ClaimMeansStaged(pending, s, r); }
    if ClaimedIn(pending, s.staged, r) { StagedMeansClaim(pending, s, r); }
  }

  lemma ClaimMeansStaged(pending: seq<Resting>, s: Scan, r: Resting)
    requires ClaimsAre(pending, s) && Below(pending, r.id) && ClaimedByOther(s.claims, r.order, r.id)
    ensures ClaimedIn(pending, s.staged, r)
  {
    var c :| c in s.claims && c.group == r.order.group.value && c.keeper != r.id;
    assert ClaimIs(pending, s.staged, c);
    var q, f :| q in pending && f in s.staged && ClaimFrom(q, f, c);
    assert StagedLeg(q, f, r);
  }

  lemma StagedMeansClaim(pending: seq<Resting>, s: Scan, r: Resting)
    requires ClaimsAre(pending, s) && ClaimedIn(pending, s.staged, r)
    ensures ClaimedByOther(s.claims, r.order, r.id)
  {
    hide ClaimIs;
    var q, f :| q in pending && f in s.staged && StagedLeg(q, f, r) && q.id < r.id;
    assert HasClaim(s.claims, q);
  }

  /** Later orders change nothing an order met. */
  lemma MetStays(cfg: Config, bar: Bar, start: Scan, pending: seq<Resting>, staged: seq<Staged>, r: Resting, last: Resting, f: Option<Staged>)
    requires r.id <= last.id && (f.Some? ==> f.value.id == last.id)
    ensures MetIn(cfg, bar, start, pending + [last], staged + Listed(f), r) == MetIn(cfg, bar, start, pending, staged, r)
  {
    hide Tally, Uncertain, DrawsBefore, ClaimedIn;
    TallyListed(staged, f, QtyBefore(r.id));
    TallyListed(staged, f, SignedBefore(r.id));
    DrawsPush(cfg, bar, pending, last, r.id);
    ClaimedStays(pending, staged, r, last, f);
  }

  lemma ClaimedStays(pending: seq<Resting>, staged: seq<Staged>, r: Resting, last: Resting, f: Option<Staged>)
    requires r.id <= last.id && (f.Some? ==> f.value.id == last.id)
    ensures ClaimedIn(pending + [last], staged + Listed(f), r) <==> ClaimedIn(pending, staged, r)
  {
    if ClaimedIn(pending, staged, r) {
      var q, g :| q in pending && g in staged && StagedLeg(q, g, r) && q.id < r.id;
      assert q in pending + [last] && g in staged + Listed(f);
    }
  }

  lemma TakenStep(start: Scan, s: Scan, r: Resting, d: Decision, now: int)
    requires s.cap == (if start.cap.Some? then Some(start.cap.value - Tally(s.staged, QtyOf())) else None)
    requires s.net == start.net + Tally(s.staged, SignedOf())
    requires d.staged.Some? ==> d.staged.value.side == r.order.side
    ensures var t := Advance(s, r, d, now);
            && t.cap == (if start.cap.Some? then Some(start.cap.value - Tally(t.staged, QtyOf())) else None)
            && t.net == start.net + Tally(t.staged, SignedOf())
  {
    TallyListed(s.staged, d.staged, QtyOf());
    TallyListed(s.staged, d.staged, SignedOf());
    hide Tally;
  }

  lemma ClaimStays(pending: seq<Resting>, staged: seq<Staged>, c: Claim, r: Resting, f: Option<Staged>)
    requires ClaimIs(pending, staged, c)
    ensures ClaimIs(pending + [r], staged + Listed(f), c)
  {
    var q, g :| q in pending && g in staged && ClaimFrom(q, g, c);
    assert q in pending + [r] && g in staged + Listed(f);
  }

  lemma HasClaimStays(claims: seq<Claim>, more: seq<Claim>, q: Resting)
    requires HasClaim(claims, q)
    ensures HasClaim(claims + more, q)
  {
    var c :| c in claims && q.order.group == Some(c.group) && c.keeper == q.id;
    assert c in claims + more;
  }

  /** Keepers come before the order, so a group claimed at all is claimed by another leg. */
  lemma UnclaimedGroup(pending: seq<Resting>, s: Scan, r: Resting)
    requires ClaimsAre(pending, s) && Below(pending, r.id) && r.order.group.Some? && GroupClaimed(s.claims, r.order.group.value)
    ensures ClaimedByOther(s.claims, r.order, r.id)
  {
    var c :| c in s.claims && c.group == r.order.group.value;
    assert ClaimIs(pending, s.staged, c);
    var q, f :| q in pending && f in s.staged && ClaimFrom(q, f, c);
  }

  lemma NewClaims(pending: seq<Resting>, s: Scan, r: Resting, d: Decision)
    requires ClaimsAre(pending, s) && Below(pending, r.id)
    requires d.staged.Some? ==> !ClaimedByOther(s.claims, r.order, r.id)
    ensures var claims := NextClaims(s.claims, r.order.group, r.id, d);
            if d.staged.Some? && r.order.group.Some? then
              claims == s.claims + [Claim(r.order.group.value, r.id, d.filled, d.staged.value.complete)] && !GroupClaimed(s.claims, r.order.group.value)
            else
              claims == s.claims
  {
    if d.staged.Some? && r.order.group.Some? && GroupClaimed(s.claims, r.order.group.value) { UnclaimedGroup(pending, s, r); }
    hide ClaimsAre, ClaimedByOther, GroupClaimed;
  }

  lemma StagedStep(pending: seq<Resting>, staged: seq<Staged>, r: Resting, f: Option<Staged>)
    requires (forall g :: g in staged ==> StagedFrom(pending, g)) && (f.Some? ==> f.value.id == r.id)
    ensures forall g :: g in staged + Listed(f) ==> StagedFrom(pending + [r], g)
  {
    forall g | g in staged + Listed(f) ensures StagedFrom(pending + [r], g) {
      if g in staged {
        assert StagedFrom(pending, g);
        var q :| q in pending && g.id == q.id;
        assert q in pending + [r];
      } else {
        assert r in pending + [r];
      }
    }
  }

  lemma ClaimsStep(pending: seq<Resting>, s: Scan, r: Resting, d: Decision, now: int)
    requires ClaimsAre(pending, s) && Below(pending, r.id) && (forall f :: f in s.staged ==> StagedFrom(pending, f))
    requires d.staged.Some? ==> d.staged.value.id == r.id && d.filled == r.filled + d.staged.value.qty
    requires d.staged.Some? ==> !ClaimedByOther(s.claims, r.order, r.id)
    ensures ClaimsAre(pending + [r], Advance(s, r, d, now))
  {
    hide ClaimIs, HasClaim, ClaimedByOther, GroupClaimed, StagedFrom;
    var t := Advance(s, r, d, now);
    NewClaims(pending, s, r, d);
    StagedBelow(pending, s.staged, r.id);
    forall c | c in t.claims ensures ClaimIs(pending + [r], t.staged, c) {
      if c in s.claims { ClaimStays(pending, s.staged, c, r, d.staged); } else { ClaimIsNew(pending, s.staged, r, d, c); }
    }
    forall q, f | q in pending + [r] && f in t.staged && f.id == q.id && q.order.group.Some? ensures HasClaim(t.claims, q) {
      ClaimFound(pending, s, r, d, q, f);
    }
    ClaimsDiffer(s.claims, r, d);
  }

  lemma ClaimIsNew(pending: seq<Resting>, staged: seq<Staged>, r: Resting, d: Decision, c: Claim)
    requires d.staged.Some? && d.staged.value.id == r.id && d.filled == r.filled + d.staged.value.qty && r.order.group.Some?
    requires c == Claim(r.order.group.value, r.id, d.filled, d.staged.value.complete)
    ensures ClaimIs(pending + [r], staged + Listed(d.staged), c)
  {
    assert r in pending + [r] && d.staged.value in staged + Listed(d.staged) && ClaimFrom(r, d.staged.value, c);
  }

  lemma ClaimFound(pending: seq<Resting>, s: Scan, r: Resting, d: Decision, q: Resting, f: Staged)
    requires ClaimsAre(pending, s) && Below(pending, r.id) && (forall g :: g in s.staged ==> g.id < r.id)
    requires d.staged.Some? ==> d.staged.value.id == r.id && !ClaimedByOther(s.claims, r.order, r.id)
    requires q in pending + [r] && f in s.staged + Listed(d.staged) && f.id == q.id && q.order.group.Some?
    ensures HasClaim(NextClaims(s.claims, r.order.group, r.id, d), q)
  {
    NewClaims(pending, s, r, d);
    hide ClaimIs, ClaimedByOther, GroupClaimed, NextClaims;
    var claims := NextClaims(s.claims, r.order.group, r.id, d);
    if q in pending {
      assert q.id < r.id;
      assert HasClaim(s.claims, q);
      HasClaimStays(s.claims, claims[|s.claims|..], q);
      assert claims == s.claims + claims[|s.claims|..];
    } else {
      assert q == r && claims[|s.claims|] in claims;
    }
  }

  lemma ClaimsDiffer(claims: seq<Claim>, r: Resting, d: Decision)
    requires forall i, j :: 0 <= i < j < |claims| ==> claims[i].group != claims[j].group
    ensures var more := NextClaims(claims, r.order.group, r.id, d); forall i, j :: 0 <= i < j < |more| ==> more[i].group != more[j].group
  {
  }

  lemma ContextStep(cfg: Config, bar: Bar, now: int, start: Scan, pending: seq<Resting>, s: Scan, r: Resting, bound: nat)
    requires WellFormedBar(bar) && Sound(cfg, r) && Context(cfg, bar, start, pending, r.id, s) && r.id < bound
    ensures Context(cfg, bar, start, pending + [r], bound, Advance(s, r, Decide(cfg, bar, now, s, r), now))
  {
    hide Decide, ClaimsAre, Uncertain, DrawsBefore, StagedFrom, ClaimedByOther, Ending, Left, Fills, Stays, Fires, IsPrice, SizeOf, Tally, Finishes;
    StagedBelow(pending, s.staged, r.id);
    var d := Decide(cfg, bar, now, s, r);
    DecisionIsFate(cfg, bar, now, s, r);
    StagingIsUnclaimed(cfg, r, bar, MetAt(s, r));
    TakenStep(start, s, r, d, now);
    ClaimsStep(pending, s, r, d, now);
    StagedStep(pending, s.staged, r, d.staged);
    DrawsPush(cfg, bar, pending, r, bound);
    DrawsOfAll(cfg, bar, pending, r.id, bound);
  }

  lemma StagingIsUnclaimed(cfg: Config, r: Resting, bar: Bar, met: Met)
    ensures Fills(cfg, r, bar, met) ==> !met.claimed
  {
    hide Acts, SizeOf;
  }

  // ---------------------------------------------------------------- every order's fate in the pass

  /** One order's part of what the pass has produced so far, given what it met. */
  ghost predicate Produced(cfg: Config, bar: Bar, now: int, r: Resting, met: Met, s: Scan) {
    && (Stays(cfg, r, bar, met) ==> Left(cfg, r, bar, met) in s.kept)
    && (Fills(cfg, r, bar, met) ==> exists f :: f in s.staged && IsFill(cfg, r, bar, met, f))
    && (Ending(cfg, r, bar, now, met).Some? ==> Ending(cfg, r, bar, now, met).value in s.events)
    && (Fires(cfg, r, bar, met) ==> OrderTriggered(r.id, now) in s.events)
  }

  ghost predicate MadeBy(cfg: Config, bar: Bar, now: int, r: Resting, met: Met, e: AccountEvent) {
    Ending(cfg, r, bar, now, met) == Some(e) || (Fires(cfg, r, bar, met) && e == OrderTriggered(r.id, now))
  }

  ghost predicate KeptFrom(cfg: Config, bar: Bar, start: Scan, pending: seq<Resting>, s: Scan, k: Resting) {
    exists r :: r in pending && KeptAs(cfg, bar, r, MetIn(cfg, bar, start, pending, s.staged, r), k)
  }

  ghost predicate KeptAs(cfg: Config, bar: Bar, r: Resting, met: Met, k: Resting) {
    Stays(cfg, r, bar, met) && k == Left(cfg, r, bar, met)
  }

  ghost predicate FilledFrom(cfg: Config, bar: Bar, start: Scan, pending: seq<Resting>, s: Scan, f: Staged) {
    exists r :: r in pending && FilledAs(cfg, bar, r, MetIn(cfg, bar, start, pending, s.staged, r), f)
  }

  ghost predicate FilledAs(cfg: Config, bar: Bar, r: Resting, met: Met, f: Staged) {
    Fills(cfg, r, bar, met) && IsFill(cfg, r, bar, met, f)
  }

  ghost predicate EventFrom(cfg: Config, bar: Bar, now: int, start: Scan, pending: seq<Resting>, s: Scan, e: AccountEvent) {
    exists r :: r in pending && MadeBy(cfg, bar, now, r, MetIn(cfg, bar, start, pending, s.staged, r), e)
  }

  /** The pass has produced what becomes of each order, and nothing else. */
  ghost predicate PassFates(cfg: Config, bar: Bar, now: int, start: Scan, pending: seq<Resting>, s: Scan) {
    && (forall r :: r in pending ==> Produced(cfg, bar, now, r, MetIn(cfg, bar, start, pending, s.staged, r), s))
    && (forall k :: k in s.kept ==> KeptFrom(cfg, bar, start, pending, s, k))
    && (forall f :: f in s.staged ==> FilledFrom(cfg, bar, start, pending, s, f))
    && (forall e :: e in s.events ==> EventFrom(cfg, bar, now, start, pending, s, e))
  }

  lemma ProducedStays(cfg: Config, bar: Bar, now: int, q: Resting, met: Met, s: Scan, r: Resting, d: Decision)
    requires Produced(cfg, bar, now, q, met, s)
    ensures Produced(cfg, bar, now, q, met, Advance(s, r, d, now))
  {
    hide Stays, Left, Fills, IsFill, Ending, Fires, NextClaims, NextNet, NextCap;
    var t := Advance(s, r, d, now);
    if Fills(cfg, q, bar, met) {
      var f :| f in s.staged && IsFill(cfg, q, bar, met, f);
      assert f in t.staged;
    }
  }

  lemma DecisionProduces(cfg: Config, bar: Bar, now: int, s: Scan, r: Resting, d: Decision, met: Met)
    requires IsFate(cfg, r, bar, now, met, d)
    ensures Produced(cfg, bar, now, r, met, Advance(s, r, d, now))
  {
    hide Stays, Left, Fills, IsFill, Ending, Fires, NextClaims, NextNet, NextCap, Uncertain;
    var t := Advance(s, r, d, now);
    if Fills(cfg, r, bar, met) { assert d.staged.value in t.staged; }
    if Stays(cfg, r, bar, met) { assert d.kept.value in t.kept; }
    if d.ended.Some? { assert d.ended.value in d.Events(r.id, now); }
    if d.triggered { assert d.Events(r.id, now)[0] == OrderTriggered(r.id, now); }
  }

  /** Whatever one more order adds came from that order. */
  lemma AddedByLast(cfg: Config, bar: Bar, now: int, s: Scan, r: Resting, d: Decision, met: Met)
    requires IsFate(cfg, r, bar, now, met, d)
    ensures var t := Advance(s, r, d, now);
            && (forall k :: k in t.kept ==> k in s.kept || KeptAs(cfg, bar, r, met, k))
            && (forall f :: f in t.staged ==> f in s.staged || FilledAs(cfg, bar, r, met, f))
            && (forall e :: e in t.events ==> e in s.events || MadeBy(cfg, bar, now, r, met, e))
  {
    hide Stays, Left, Fills, IsFill, Ending, Fires, NextClaims, NextNet, NextCap, Uncertain;
  }

  lemma PassStep(cfg: Config, bar: Bar, now: int, start: Scan, pending: seq<Resting>, s: Scan, r: Resting)
    requires WellFormedBar(bar) && Sound(cfg, r) && Context(cfg, bar, start, pending, r.id, s)
    requires PassFates(cfg, bar, now, start, pending, s)
    ensures PassFates(cfg, bar, now, start, pending + [r], Advance(s, r, Decide(cfg, bar, now, s, r), now))
  {
    hide Decide, Produced, MetIn, IsFate, KeptAs, FilledAs, MadeBy, Context, Advance, KeptFrom, FilledFrom, EventFrom;
    var d := Decide(cfg, bar, now, s, r);
    var t, all := Advance(s, r, d, now), pending + [r];
    DecisionIsFate(cfg, bar, now, s, r);
    ContextIsMet(cfg, bar, start, pending, s, r);
    StepStaging(cfg, bar, now, start, pending, s, r, d);
    var met := MetIn(cfg, bar, start, all, t.staged, r);
    DecisionProduces(cfg, bar, now, s, r, d, met);
    forall q | q in all ensures Produced(cfg, bar, now, q, MetIn(cfg, bar, start, all, t.staged, q), t) {
      if q in pending { ProducedStays(cfg, bar, now, q, MetIn(cfg, bar, start, pending, s.staged, q), s, r, d); }
    }
    AddedByLast(cfg, bar, now, s, r, d, met);
    forall k | k in t.kept ensures KeptFrom(cfg, bar, start, all, t, k) { KeptStep(cfg, bar, start, pending, s, t, r, k); }
    forall f | f in t.staged ensures FilledFrom(cfg, bar, start, all, t, f) { FilledStep(cfg, bar, start, pending, s, t, r, f); }
    forall e | e in t.events ensures EventFrom(cfg, bar, now, start, all, t, e) { EventStep(cfg, bar, now, start, pending, s, t, r, e); }
  }

  /** What each order met is the same after one more. */
  ghost predicate SameMet(cfg: Config, bar: Bar, start: Scan, pending: seq<Resting>, staged: seq<Staged>, all: seq<Resting>, more: seq<Staged>) {
    forall q :: q in pending ==> MetIn(cfg, bar, start, all, more, q) == MetIn(cfg, bar, start, pending, staged, q)
  }

  lemma StepStaging(cfg: Config, bar: Bar, now: int, start: Scan, pending: seq<Resting>, s: Scan, r: Resting, d: Decision)
    requires IsFate(cfg, r, bar, now, MetAt(s, r), d) && Context(cfg, bar, start, pending, r.id, s)
    ensures var t := Advance(s, r, d, now);
            && SameMet(cfg, bar, start, pending, s.staged, pending + [r], t.staged)
            && MetIn(cfg, bar, start, pending + [r], t.staged, r) == MetAt(s, r)
  {
    ContextIsMet(cfg, bar, start, pending, s, r);
    hide MetIn, MetAt, Ending, Stays, Fills, Left, Fires, Uncertain, ClaimsAre, IsPrice, SizeOf, Finishes, Tally;
    MetStays(cfg, bar, start, pending, s.staged, r, r, d.staged);
    forall q | q in pending
      ensures MetIn(cfg, bar, start, pending + [r], Advance(s, r, d, now).staged, q) == MetIn(cfg, bar, start, pending, s.staged, q)
    {
      MetStays(cfg, bar, start, pending, s.staged, q, r, d.staged);
    }
  }

  lemma KeptStep(cfg: Config, bar: Bar, start: Scan, pending: seq<Resting>, s: Scan, t: Scan, r: Resting, k: Resting)
    requires SameMet(cfg, bar, start, pending, s.staged, pending + [r], t.staged)
    requires KeptFrom(cfg, bar, start, pending, s, k) || KeptAs(cfg, bar, r, MetIn(cfg, bar, start, pending + [r], t.staged, r), k)
    ensures KeptFrom(cfg, bar, start, pending + [r], t, k)
  {
    hide MetIn, KeptAs;
    if KeptFrom(cfg, bar, start, pending, s, k) {
      var q :| q in pending && KeptAs(cfg, bar, q, MetIn(cfg, bar, start, pending, s.staged, q), k);
      assert q in pending + [r];
    } else {
      assert r in pending + [r];
    }
  }

  lemma FilledStep(cfg: Config, bar: Bar, start: Scan, pending: seq<Resting>, s: Scan, t: Scan, r: Resting, f: Staged)
    requires SameMet(cfg, bar, start, pending, s.staged, pending + [r], t.staged)
    requires FilledFrom(cfg, bar, start, pending, s, f) || FilledAs(cfg, bar, r, MetIn(cfg, bar, start, pending + [r], t.staged, r), f)
    ensures FilledFrom(cfg, bar, start, pending + [r], t, f)
  {
    hide MetIn, FilledAs;
    if FilledFrom(cfg, bar, start, pending, s, f) {
      var q :| q in pending && FilledAs(cfg, bar, q, MetIn(cfg, bar, start, pending, s.staged, q), f);
      assert q in pending + [r];
    } else {
      assert r in pending + [r];
    }
  }

  lemma EventStep(cfg: Config, bar: Bar, now: int, start: Scan, pending: seq<Resting>, s: Scan, t: Scan, r: Resting, e: AccountEvent)
    requires SameMet(cfg, bar, start, pending, s.staged, pending + [r], t.staged)
    requires EventFrom(cfg, bar, now, start, pending, s, e) || MadeBy(cfg, bar, now, r, MetIn(cfg, bar, start, pending + [r], t.staged, r), e)
    ensures EventFrom(cfg, bar, now, start, pending + [r], t, e)
  {
    hide MetIn, MadeBy;
    if EventFrom(cfg, bar, now, start, pending, s, e) {
      var q :| q in pending && MadeBy(cfg, bar, now, q, MetIn(cfg, bar, start, pending, s.staged, q), e);
      assert q in pending + [r];
    } else {
      assert r in pending + [r];
    }
  }

  lemma {:induction false} PassIsFates(cfg: Config, bar: Bar, now: int, pending: seq<Resting>, start: Scan, bound: nat)
    requires WellFormedBar(bar) && Ascending(pending) && AllSound(cfg, pending) && Below(pending, bound)
    requires start.kept == [] && start.staged == [] && start.events == [] && start.claims == []
    ensures var s := ScanOrders(cfg, bar, now, pending, start);
            PassFates(cfg, bar, now, start, pending, s) && Context(cfg, bar, start, pending, bound, s)
  {
    if pending != [] {
      hide Decide, PassFates, Context, Advance, Sound;
      AscendingPrefix(pending);
      var init, r := pending[..|pending| - 1], pending[|pending| - 1];
      assert r in pending;
      PassIsFates(cfg, bar, now, init, start, r.id);
      var s := ScanOrders(cfg, bar, now, init, start);
      PassStep(cfg, bar, now, start, init, s, r);
      ContextStep(cfg, bar, now, start, init, s, r, bound);
    }
  }
}
