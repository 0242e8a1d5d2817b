/**
 * One-cancels-other groups never over-execute. On any bar at most one leg of a group fills; and if
 * no leg is added once the group has begun to fill, every leg still resting carries the group's
 * total as already filled, so the total over a whole run never exceeds the largest leg.
 */
module OneCancelsOther {
  import opened Prelude
  import opened Trading
  import opened Exchange
  import opened Lifecycle

  function LegQty(orders: map<nat, Order>, g: nat): Staged -> int {
    (f: Staged) => if f.id in orders && orders[f.id].group == Some(g) then f.qty else 0
  }

  function LegCount(orders: map<nat, Order>, g: nat): Staged -> int {
    (f: Staged) => if f.id in orders && orders[f.id].group == Some(g) then 1 else 0
  }

  function LegFill(orders: map<nat, Order>, g: nat): AccountEvent -> int {
    (e: AccountEvent) => if e.Fill? && e.id in orders && orders[e.id].group == Some(g) then e.qty else 0
  }

  /** Everything the legs of group g have filled so far. */
  function GroupFilled(orders: map<nat, Order>, g: nat, log: seq<AccountEvent>): int {
    Tally(log, LegFill(orders, g))
  }

  // ---------------------------------------------------------------- the pass

  /** Every resting leg of the group counts `total` as already filled. */
  ghost predicate LegsAgree(resting: seq<Resting>, g: nat, total: int) {
    forall r :: r in resting && r.order.group == Some(g) ==> r.filled == total
  }

  /** A group's first fill of the bar claims it: no claim, no leg staged; and never a second leg. */
  ghost predicate CountLaw(orders: map<nat, Order>, g: nat, s: Scan) {
    && 0 <= Tally(s.staged, LegCount(orders, g)) <= 1
    && (!GroupClaimed(s.claims, g) ==> Tally(s.staged, LegCount(orders, g)) == 0)
    && (forall i, j :: 0 <= i < j < |s.claims| ==> s.claims[i].group != s.claims[j].group)
  }

  /** What the group has filled, and what its legs count as filled, while the bar is matched. */
  ghost predicate TotalLaw(orders: map<nat, Order>, g: nat, total: int, bound: int, s: Scan) {
    && (!GroupClaimed(s.claims, g) ==> Tally(s.staged, LegQty(orders, g)) == 0 && LegsAgree(s.kept, g, total))
    && (forall c :: c in s.claims && c.group == g ==> ClaimLaw(orders, g, total, bound, s, c))
  }

  ghost predicate ClaimLaw(orders: map<nat, Order>, g: nat, total: int, bound: int, s: Scan, c: Claim) {
    && c.filled == total + Tally(s.staged, LegQty(orders, g)) <= bound
    && total < c.filled
    && (forall r :: r in s.kept && r.order.group == Some(g) ==>
          if r.id == c.keeper then r.filled == c.filled else r.filled == total)
  }

  ghost predicate KeepersBelow(s: Scan, bound: nat) {
    forall c :: c in s.claims ==> c.keeper < bound
  }

  lemma ClaimedLegsDoNotFill(cfg: Config, bar: Bar, now: int, s: Scan, r: Resting)
    ensures ClaimedByOther(s.claims, r.order, r.id) ==> Decide(cfg, bar, now, s, r).staged.None?
  {
    hide Evaluate, DecideFill;
  }

  lemma StagingClaims(cfg: Config, orders: map<nat, Order>, g: nat, bar: Bar, now: int, s: Scan, r: Resting)
    requires KeepersBelow(s, r.id) && r.id in orders && orders[r.id] == r.order && Sound(cfg, r)
    ensures var d := Decide(cfg, bar, now, s, r);
            var t := Advance(s, r, d, now);
            && KeepersBelow(t, r.id + 1)
            && (if r.order.group == Some(g) && d.staged.Some? then
                  !GroupClaimed(s.claims, g) && t.claims == s.claims + [Claim(g, r.id, d.filled, d.staged.value.complete)]
                else
                  forall c :: c in t.claims && c.group == g ==> c in s.claims)
            && (GroupClaimed(s.claims, g) ==> GroupClaimed(t.claims, g))
  {
    hide Decide;
    var d := Decide(cfg, bar, now, s, r);
    DecisionFate(cfg, bar, now, s, r);
    ClaimedLegsDoNotFill(cfg, bar, now, s, r);
  }

  lemma CountStep(cfg: Config, orders: map<nat, Order>, g: nat, bar: Bar, now: int, s: Scan, r: Resting)
    requires CountLaw(orders, g, s) && KeepersBelow(s, r.id) && r.id in orders && orders[r.id] == r.order && Sound(cfg, r)
    ensures CountLaw(orders, g, Advance(s, r, Decide(cfg, bar, now, s, r), now))
  {
    hide Decide, Tally;
    var d := Decide(cfg, bar, now, s, r);
    DecisionFate(cfg, bar, now, s, r);
    StagingClaims(cfg, orders, g, bar, now, s, r);
    TallyListed(s.staged, d.staged, LegCount(orders, g));
  }

  lemma TotalStep(cfg: Config, orders: map<nat, Order>, g: nat, total: int, bound: int, bar: Bar, now: int, s: Scan, r: Resting)
    requires TotalLaw(orders, g, total, bound, s) && Below(s.kept, r.id) && KeepersBelow(s, r.id)
    requires Sound(cfg, r) && r.id in orders && orders[r.id] == r.order
    requires r.order.group == Some(g) ==> r.filled == total && r.order.qty <= bound
    ensures TotalLaw(orders, g, total, bound, Advance(s, r, Decide(cfg, bar, now, s, r), now))
  {
    hide Decide, Tally;
    var d := Decide(cfg, bar, now, s, r);
    DecisionFate(cfg, bar, now, s, r);
    StagingClaims(cfg, orders, g, bar, now, s, r);
    TallyListed(s.staged, d.staged, LegQty(orders, g));
    var t := Advance(s, r, d, now);
    forall c | c in t.claims && c.group == g ensures ClaimLaw(orders, g, total, bound, t, c) {
      if c in s.claims { assert ClaimLaw(orders, g, total, bound, s, c) && c.keeper < r.id; }
    }
  }

  /** The orders behind a resting list, as the venue's books have them. */
  ghost predicate Known(orders: map<nat, Order>, resting: seq<Resting>) {
    forall r :: r in resting ==> r.id in orders && orders[r.id] == r.order
  }

  lemma {:induction false} ScanCounts(cfg: Config, orders: map<nat, Order>, g: nat, bar: Bar, now: int, pending: seq<Resting>, start: Scan, bound: nat)
    requires Ascending(pending) && Below(pending, bound) && AllSound(cfg, pending) && Known(orders, pending)
    requires start.kept == [] && start.staged == [] && start.claims == []
    ensures var s := ScanOrders(cfg, bar, now, pending, start);
            CountLaw(orders, g, s) && KeepersBelow(s, bound)
  {
    if pending != [] {
      hide Decide, Advance, CountLaw;
      AscendingPrefix(pending);
      var init, r := pending[..|pending| - 1], pending[|pending| - 1];
      assert r in pending;
      ScanCounts(cfg, orders, g, bar, now, init, start, r.id);
      CountStep(cfg, orders, g, bar, now, ScanOrders(cfg, bar, now, init, start), r);
      StagingClaims(cfg, orders, g, bar, now, ScanOrders(cfg, bar, now, init, start), r);
    }
  }

  lemma {:induction false} ScanTotals(cfg: Config, orders: map<nat, Order>, g: nat, total: int, bound: int, bar: Bar, now: int, pending: seq<Resting>, start: Scan)
    requires Ascending(pending) && AllSound(cfg, pending) && Known(orders, pending)
    requires LegsAgree(pending, g, total) && forall r :: r in pending && r.order.group == Some(g) ==> r.order.qty <= bound
    requires start.kept == [] && start.staged == [] && start.claims == [] && start.events == []
    ensures TotalLaw(orders, g, total, bound, ScanOrders(cfg, bar, now, pending, start))
  {
    if pending != [] {
      hide Decide, Advance, TotalLaw, CountLaw, OrderLaw;
      AscendingPrefix(pending);
      var init, r := pending[..|pending| - 1], pending[|pending| - 1];
      assert r in pending;
      ScanTotals(cfg, orders, g, total, bound, bar, now, init, start);
      ScanCounts(cfg, orders, g, bar, now, init, start, r.id);
      ScanObeysLaw(cfg, bar, now, init, start);
      TotalStep(cfg, orders, g, total, bound, bar, now, ScanOrders(cfg, bar, now, init, start), r);
    }
  }

  // ---------------------------------------------------------------- one bar

  function LegEvent(orders: map<nat, Order>, g: nat): AccountEvent -> int {
    (e: AccountEvent) => if e.Fill? && e.id in orders && orders[e.id].group == Some(g) then 1 else 0
  }

  lemma {:induction false} FillsTallyGroup(cfg: Config, orders: map<nat, Order>, g: nat, v: Venue, staged: seq<Staged>, now: int)
    ensures var events := SettleFills(cfg, v, staged, now).1;
            && Tally(events, LegFill(orders, g)) == Tally(staged, LegQty(orders, g))
            && Tally(events, LegEvent(orders, g)) == Tally(staged, LegCount(orders, g))
  {
    if staged != [] {
      hide SettleOne, FeeCosts;
      var init, f := staged[..|staged| - 1], staged[|staged| - 1];
      FillsTallyGroup(cfg, orders, g, v, init, now);
      TallyPush(SettleFills(cfg, v, init, now).1, FillEvent(cfg, f, now), LegFill(orders, g));
      TallyPush(SettleFills(cfg, v, init, now).1, FillEvent(cfg, f, now), LegEvent(orders, g));
    }
  }

  lemma {:induction false} QuietFillsNoGroup(orders: map<nat, Order>, g: nat, events: seq<AccountEvent>)
    requires forall e :: e in events ==> !e.Fill?
    ensures Tally(events, LegFill(orders, g)) == 0 && Tally(events, LegEvent(orders, g)) == 0
  {
    if events != [] {
      assert events == events[..|events| - 1] + [events[|events| - 1]];
      QuietFillsNoGroup(orders, g, events[..|events| - 1]);
    }
  }

  lemma BarTalliesGroup(cfg: Config, orders: map<nat, Order>, g: nat, v: Venue, bar: Bar, now: int)
    requires Ascending(v.resting) && AllSound(cfg, v.resting)
    ensures var events, s := Observed(cfg, v, bar, now).1, ScanBar(cfg, Marked(v, bar), bar, now);
            && Tally(events, LegFill(orders, g)) == Tally(s.staged, LegQty(orders, g))
            && Tally(events, LegEvent(orders, g)) == Tally(s.staged, LegCount(orders, g))
  {
    hide Observed, ScanOrders, SettleFills, PruneLaw;
    var s, fills, rest := ObservedParts(cfg, v, bar, now);
    FillsTallyGroup(cfg, orders, g, Marked(v, bar).(resting := s.kept, drawn := s.drawn), s.staged, now);
    QuietFillsNoGroup(orders, g, s.events);
    QuietFillsNoGroup(orders, g, rest);
    TallyConcat(s.events + fills, rest, LegFill(orders, g));
    TallyConcat(s.events, fills, LegFill(orders, g));
    TallyConcat(s.events + fills, rest, LegEvent(orders, g));
    TallyConcat(s.events, fills, LegEvent(orders, g));
  }

  /** However wide the bar, at most one leg of a group takes liquidity on it, once. */
  lemma AtMostOneLegFillsPerBar(cfg: Config, orders: map<nat, Order>, g: nat, v: Venue, bar: Bar, now: int)
    requires Ascending(v.resting) && AllSound(cfg, v.resting) && Known(orders, v.resting)
    ensures Tally(Observed(cfg, v, bar, now).1, LegEvent(orders, g)) <= 1
  {
    hide Observed, ScanOrders;
    BarTalliesGroup(cfg, orders, g, v, bar, now);
    var bound := if v.resting == [] then 0 else v.resting[|v.resting| - 1].id + 1;
    if v.resting != [] { AscendingPrefix(v.resting); }
    ScanCounts(cfg, orders, g, bar, now, v.resting, ScanStart(cfg, Marked(v, bar), bar), bound);
  }

  // ---------------------------------------------------------------- the legs after the bar

  lemma {:induction false} ClaimResolvesLegs(resting: seq<Resting>, g: nat, total: int, c: Claim, now: int)
    requires c.group == g && total <= c.filled
    requires forall r :: r in resting && r.order.group == Some(g) ==> if r.id == c.keeper then r.filled == c.filled else r.filled == total
    ensures LegsAgree(ResolveClaim(resting, c, now).0, g, c.filled)
  {
    if resting != [] {
      assert resting == resting[..|resting| - 1] + [resting[|resting| - 1]];
      ClaimResolvesLegs(resting[..|resting| - 1], g, total, c, now);
    }
  }

  /** Resolving another group's claim passes this group's legs through untouched. */
  lemma {:induction false} OtherClaimKeepsLegs(resting: seq<Resting>, g: nat, c: Claim, now: int)
    requires c.group != g
    ensures forall r :: r in ResolveClaim(resting, c, now).0 && r.order.group == Some(g) ==> r in resting
  {
    if resting != [] {
      assert resting == resting[..|resting| - 1] + [resting[|resting| - 1]];
      OtherClaimKeepsLegs(resting[..|resting| - 1], g, c, now);
    }
  }

  lemma {:induction false} OtherClaimsKeepLegs(resting: seq<Resting>, g: nat, claims: seq<Claim>, now: int)
    requires forall c :: c in claims ==> c.group != g
    ensures forall r :: r in ResolveClaims(resting, claims, now).0 && r.order.group == Some(g) ==> r in resting
  {
    if claims != [] {
      var init, c := claims[..|claims| - 1], claims[|claims| - 1];
      assert claims == init + [c];
      OtherClaimsKeepLegs(resting, g, init, now);
      OtherClaimKeepsLegs(ResolveClaims(resting, init, now).0, g, c, now);
    }
  }

  lemma {:induction false} ClaimsResolveLegs(resting: seq<Resting>, g: nat, total: int, claims: seq<Claim>, k: nat, now: int)
    requires k < |claims| && claims[k].group == g && total <= claims[k].filled
    requires forall i, j :: 0 <= i < j < |claims| ==> claims[i].group != claims[j].group
    requires forall r :: r in resting && r.order.group == Some(g) ==> if r.id == claims[k].keeper then r.filled == claims[k].filled else r.filled == total
    ensures LegsAgree(ResolveClaims(resting, claims, now).0, g, claims[k].filled)
    decreases |claims|
  {
    var init, c := claims[..|claims| - 1], claims[|claims| - 1];
    if k == |claims| - 1 {
      OtherClaimsKeepLegs(resting, g, init, now);
      ClaimResolvesLegs(ResolveClaims(resting, init, now).0, g, total, c, now);
    } else {
      ClaimsResolveLegs(resting, g, total, init, k, now);
      OtherClaimKeepsLegs(ResolveClaims(resting, init, now).0, g, c, now);
    }
  }

  lemma {:induction false} DropKeepsLegs(resting: seq<Resting>, instrument: nat, now: int)
    ensures forall r :: r in DropInstrument(resting, instrument, now).0 ==> r in resting
  {
    if resting != [] {
      assert resting == resting[..|resting| - 1] + [resting[|resting| - 1]];
      DropKeepsLegs(resting[..|resting| - 1], instrument, now);
    }
  }

  lemma ObserveKeepsLegs(cfg: Config, orders: map<nat, Order>, g: nat, total: int, bound: int, v: Venue, bar: Bar, now: int)
    requires Ascending(v.resting) && AllSound(cfg, v.resting) && Known(orders, v.resting)
    requires LegsAgree(v.resting, g, total) && total <= bound
    requires forall r :: r in v.resting && r.order.group == Some(g) ==> r.order.qty <= bound
    ensures var (w, events) := Observed(cfg, v, bar, now);
            var more := Tally(events, LegFill(orders, g));
            LegsAgree(w.resting, g, total + more) && 0 <= more && total + more <= bound
  {
    hide ScanOrders, Observed, Tally, TotalLaw, CountLaw, ResolveClaims;
    BarTalliesGroup(cfg, orders, g, v, bar, now);
    var start := ScanStart(cfg, Marked(v, bar), bar);
    ScanTotals(cfg, orders, g, total, bound, bar, now, v.resting, start);
    var top := if v.resting == [] then 0 else v.resting[|v.resting| - 1].id + 1;
    if v.resting != [] { AscendingPrefix(v.resting); }
    ScanCounts(cfg, orders, g, bar, now, v.resting, start, top);
    var s := ScanBar(cfg, Marked(v, bar), bar, now);
    LegsAfterClaims(orders, g, total, bound, s, now);
    BarKeepsAgreement(cfg, v, bar, now, g, total + Tally(s.staged, LegQty(orders, g)));
  }

  lemma LegsAfterClaims(orders: map<nat, Order>, g: nat, total: int, bound: int, s: Scan, now: int)
    requires TotalLaw(orders, g, total, bound, s) && CountLaw(orders, g, s) && total <= bound
    ensures var more := Tally(s.staged, LegQty(orders, g));
            LegsAgree(ResolveClaims(s.kept, s.claims, now).0, g, total + more) && 0 <= more && total + more <= bound
  {
    hide ResolveClaims, Tally;
    if GroupClaimed(s.claims, g) {
      var k :| 0 <= k < |s.claims| && s.claims[k].group == g;
      assert ClaimLaw(orders, g, total, bound, s, s.claims[k]);
      ClaimsResolveLegs(s.kept, g, total, s.claims, k, now);
    } else {
      OtherClaimsKeepLegs(s.kept, g, s.claims, now);
    }
  }

  /** What follows the resolved claims, funding and liquidation, only drops legs. */
  lemma BarKeepsAgreement(cfg: Config, v: Venue, bar: Bar, now: int, g: nat, filled: int)
    requires var s := ScanBar(cfg, Marked(v, bar), bar, now); LegsAgree(ResolveClaims(s.kept, s.claims, now).0, g, filled)
    ensures LegsAgree(Observed(cfg, v, bar, now).0.resting, g, filled)
  {
    hide ScanOrders, ResolveClaims, SettleOne, MulRate, FundingRateAt, MustLiquidate;
    var s := ScanBar(cfg, Marked(v, bar), bar, now);
    var ready := Marked(v, bar).(resting := s.kept, drawn := s.drawn);
    SettlingLeavesResting(cfg, ready, s.staged, now);
    hide SettleFills;
    DropKeepsLegs(ResolveClaims(s.kept, s.claims, now).0, bar.instrument, now);
  }

  lemma {:induction false} SettlingLeavesResting(cfg: Config, v: Venue, staged: seq<Staged>, now: int)
    ensures SettleFills(cfg, v, staged, now).0.resting == v.resting
  {
    FillsTallies(cfg, v, staged, now, 0);
  }

  // ---------------------------------------------------------------- whole runs

  /** Every leg of g was submitted before the group first filled, and none is larger than bound. */
  ghost predicate LegsComeFirst(cfg: Config, cash: Option<int>, orders: map<nat, Order>, g: nat, bound: int, ops: seq<Op>) {
    forall i :: 0 <= i < |ops| && ops[i].Submit? && ops[i].order.group == Some(g) ==>
      ops[i].order.qty <= bound && GroupFilled(orders, g, RunOps(cfg, cash, ops[..i]).1) == 0
  }

  ghost predicate RecordedIn(orders: map<nat, Order>, ops: seq<Op>) {
    forall op :: op in ops && op.Submit? ==> op.id in orders && orders[op.id] == op.order
  }

  lemma {:induction false} BooksAgreeWith(orders: map<nat, Order>, ops: seq<Op>)
    requires RecordedIn(orders, ops)
    ensures forall id :: id in Submissions(ops) ==> id in orders && orders[id] == Submissions(ops)[id]
  {
    if ops != [] {
      assert ops == ops[..|ops| - 1] + [ops[|ops| - 1]];
      BooksAgreeWith(orders, ops[..|ops| - 1]);
    }
  }

  lemma KnownFromBooks(orders: map<nat, Order>, ops: seq<Op>, v: Venue, log: seq<AccountEvent>)
    requires Books(Submissions(ops), v, log) && RecordedIn(orders, ops)
    ensures Known(orders, v.resting)
  {
    BooksAgreeWith(orders, ops);
    forall r | r in v.resting ensures r.id in orders && orders[r.id] == r.order {
      assert Told(Submissions(ops), r, log);
    }
  }

  /** The group after a run: legs agree on the total filled, which no leg's size is needed to exceed. */
  ghost predicate GroupSafe(orders: map<nat, Order>, g: nat, bound: int, v: Venue, log: seq<AccountEvent>) {
    && LegsAgree(v.resting, g, GroupFilled(orders, g, log))
    && 0 <= GroupFilled(orders, g, log) <= bound
    && (forall r :: r in v.resting && r.order.group == Some(g) ==> r.order.qty <= bound)
  }

  lemma SubmitKeepsGroup(cfg: Config, orders: map<nat, Order>, g: nat, bound: int, v: Venue, log: seq<AccountEvent>, op: Op)
    requires op.Submit? && GroupSafe(orders, g, bound, v, log)
    requires op.order.group == Some(g) ==> op.order.qty <= bound && GroupFilled(orders, g, log) == 0
    ensures var (w, events) := Exec(cfg, v, op); GroupSafe(orders, g, bound, w, log + events)
  {
    hide Exec, Tally;
    SubmitEffect(cfg, v, op);
    var events := Exec(cfg, v, op).1;
    QuietFillsNoGroup(orders, g, events);
    TallyConcat(log, events, LegFill(orders, g));
  }

  lemma CancelKeepsGroup(cfg: Config, orders: map<nat, Order>, g: nat, bound: int, v: Venue, log: seq<AccountEvent>, op: Op)
    requires op.Cancel? && GroupSafe(orders, g, bound, v, log)
    ensures var (w, events) := Exec(cfg, v, op); GroupSafe(orders, g, bound, w, log + events)
  {
    hide Exec, Tally;
    CancelEffect(cfg, v, op);
    var events := Exec(cfg, v, op).1;
    QuietFillsNoGroup(orders, g, events);
    TallyConcat(log, events, LegFill(orders, g));
  }

  lemma ObserveKeepsGroup(cfg: Config, orders: map<nat, Order>, g: nat, bound: int, v: Venue, log: seq<AccountEvent>, bar: Bar, now: int)
    requires Ascending(v.resting) && AllSound(cfg, v.resting) && Known(orders, v.resting) && GroupSafe(orders, g, bound, v, log)
    ensures var (w, events) := Exec(cfg, v, Observe(bar, now)); GroupSafe(orders, g, bound, w, log + events)
  {
    hide Observed, Tally;
    ObserveKeepsLegs(cfg, orders, g, GroupFilled(orders, g, log), bound, v, bar, now);
    ObserveKeepsOrders(cfg, v, bar, now);
    TallyConcat(log, Observed(cfg, v, bar, now).1, LegFill(orders, g));
  }

  lemma PrefixIsFresh(orders: map<nat, Order>, ops: seq<Op>)
    requires ops != [] && FreshIds(ops) && RecordedIn(orders, ops)
    ensures FreshIds(ops[..|ops| - 1]) && RecordedIn(orders, ops[..|ops| - 1])
  {
    assert ops == ops[..|ops| - 1] + [ops[|ops| - 1]];
  }

  /** A group's legs agree on its total, and the total never exceeds the largest leg. */
  lemma {:induction false} GroupsNeverOverExecute(cfg: Config, cash: Option<int>, orders: map<nat, Order>, g: nat, bound: nat, ops: seq<Op>)
    requires FreshIds(ops) && RecordedIn(orders, ops) && LegsComeFirst(cfg, cash, orders, g, bound, ops)
    ensures var (v, log) := RunOps(cfg, cash, ops); GroupSafe(orders, g, bound, v, log)
  {
    if ops != [] {
      hide Exec, Books, GroupSafe, Submissions, LegsComeFirst, GroupFilled, RecordedIn, FreshIds, Ascending, AllSound, Known;
      var init, op := ops[..|ops| - 1], ops[|ops| - 1];
      PrefixIsFresh(orders, ops);
      LegsCameFirst(cfg, cash, orders, g, bound, ops);
      GroupsNeverOverExecute(cfg, cash, orders, g, bound, init);
      EveryRunKeepsTheBooks(cfg, cash, init);
      var (v, log) := RunOps(cfg, cash, init);
      match op
      case Submit(_, _, _) => SubmitKeepsGroup(cfg, orders, g, bound, v, log, op);
      case Cancel(_, _) => CancelKeepsGroup(cfg, orders, g, bound, v, log, op);
      case Observe(bar, now) =>
        KnownFromBooks(orders, init, v, log);
        ObserveKeepsGroup(cfg, orders, g, bound, v, log, bar, now);
    }
  }

  lemma LegsCameFirst(cfg: Config, cash: Option<int>, orders: map<nat, Order>, g: nat, bound: int, ops: seq<Op>)
    requires ops != [] && LegsComeFirst(cfg, cash, orders, g, bound, ops)
    ensures LegsComeFirst(cfg, cash, orders, g, bound, ops[..|ops| - 1])
    ensures var op := ops[|ops| - 1];
            op.Submit? && op.order.group == Some(g) ==>
              op.order.qty <= bound && GroupFilled(orders, g, RunOps(cfg, cash, ops[..|ops| - 1]).1) == 0
  {
    hide RunOps, GroupFilled;
    var init := ops[..|ops| - 1];
    forall i | 0 <= i < |init| && init[i].Submit? && init[i].order.group == Some(g)
      ensures init[i].order.qty <= bound && GroupFilled(orders, g, RunOps(cfg, cash, init[..i]).1) == 0
    {
      assert ops[i] == init[i] && init[..i] == ops[..i];
    }
  }

  lemma ObserveKeepsOrders(cfg: Config, v: Venue, bar: Bar, now: int)
    requires Ascending(v.resting) && AllSound(cfg, v.resting)
    ensures Exec(cfg, v, Observe(bar, now)) == Observed(cfg, v, bar, now)
    ensures forall k :: k in Observed(cfg, v, bar, now).0.resting ==> exists r :: r in v.resting && r.order == k.order
  {
    hide Observed;
    ObserveObeysBarLaw(cfg, v, bar, now);
    var (w, events) := Observed(cfg, v, bar, now);
    forall k | k in w.resting ensures exists r :: r in v.resting && r.order == k.order {
      assert BarTallies(v.resting, w.resting, events, k.id);
      RestsAtMostOnce(v.resting, k.id);
      RestsAtMostOnce(w.resting, k.id);
      TallyNonNegative(events, TerminalOf(k.id));
      var r :| r in v.resting && r.id == k.id;
      assert BarOrder(r, w.resting, events);
    }
  }
}
