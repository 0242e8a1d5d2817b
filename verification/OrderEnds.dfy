/**
 * Which orders leave the book, and why. On one bar an order that is not yet live waits, and a live
 * good-till-canceled order goes only when it is done, refused, beaten or released by a leg of its
 * group, has nothing to reduce, or is liquidated with its instrument. Over every run each order that
 * expired or was canceled had such a reason.
 */
module OrderEnds {
  import opened Prelude
  import opened Trading
  import opened Exchange
  import opened Lifecycle
  import opened FillSafety
  import opened OrderTerms
  import opened OrderFate
  import opened BarFates
  import opened BarOutcomes
  import opened Liquidations
  import opened Charges
  import OneCancelsOther

  // ---------------------------------------------------------------- one bar

  lemma UngroupedAlone(resting: seq<Resting>, events: seq<AccountEvent>, r: Resting)
    requires r.order.group.None?
    ensures !Released(resting, events, r)
    ensures forall q, e :: q in resting && e in events ==> !SiblingFill(q, e, r)
  {
  }

  /** An order of another instrument or still in flight stays, one bar closer to working if it was in flight. */
  lemma OrdersInFlightWait(cfg: Config, v: Venue, bar: Bar, now: int, r: Resting)
    requires WellFormedBar(bar) && Ascending(v.resting) && AllSound(cfg, v.resting)
    requires r in v.resting && !Live(r, bar) && r.order.group.None?
    ensures var (w, events) := Observed(cfg, v, bar, now);
            !(Liquidated(events) && r.order.instrument == bar.instrument) ==>
              r.(activateIn := if r.order.instrument == bar.instrument then r.activateIn - 1 else r.activateIn) in w.resting
  {
    hide Observed, Ascending, AllSound, MetOn, Fires, Fills;
    var (w, events) := Observed(cfg, v, bar, now);
    var k := r.(activateIn := if r.order.instrument == bar.instrument then r.activateIn - 1 else r.activateIn);
    if !(Liquidated(events) && r.order.instrument == bar.instrument) {
      RestsExactlyWhen(cfg, v, bar, now);
      UngroupedAlone(v.resting, events, r);
      hide Liquidated, Released, RestsFrom;
      assert RestsAs(cfg, v, bar, events, r, k) by { hide Stays, Ends; }
      assert RestsFrom(cfg, v, bar, events, k);
    }
  }

  /** The order done or out of reason to rest after the bar. */
  ghost predicate Departs(cfg: Config, v: Venue, bar: Bar, events: seq<AccountEvent>, r: Resting) {
    var met := MetOn(cfg, v, bar, events, r);
    || FillsUp(cfg, r, bar, met) || Refused(r, bar) || Beaten(cfg, r, bar, met) || Useless(cfg, r, bar, met)
    || Released(v.resting, events, r) || Liquidated(events)
  }

  /**
   * A live good-till-canceled order is off the book after a bar exactly when its fill completed it, it
   * is post-only and would take, a leg of its group filled before it or left it nothing, it has no
   * position to reduce, or its instrument was liquidated. A bar that does not reach it leaves it there.
   */
  lemma WorkingOrdersLeaveForAReason(cfg: Config, v: Venue, bar: Bar, now: int, r: Resting)
    requires WellFormedBar(bar) && Ascending(v.resting) && AllSound(cfg, v.resting)
    requires r in v.resting && Live(r, bar) && r.order.tif == Gtc
    ensures var (w, events) := Observed(cfg, v, bar, now);
            OnBook(w.resting, r.id) <==> !Departs(cfg, v, bar, events, r)
  {
    hide Observed, AllSound, MetOn, Released, Liquidated, IsShrunk, RestsFrom, FillsUp, Refused, Beaten, Useless, Ascending, Left;
    RestsExactlyWhen(cfg, v, bar, now);
    var (w, events) := Observed(cfg, v, bar, now);
    if OnBook(w.resting, r.id) {
      var k :| k in w.resting && k.id == r.id;
      var q := RestedBefore(cfg, v, bar, events, k);
      SameOrder(v.resting, r, q);
    }
  }

  lemma RestedBefore(cfg: Config, v: Venue, bar: Bar, events: seq<AccountEvent>, k: Resting) returns (r: Resting)
    requires RestsFrom(cfg, v, bar, events, k)
    ensures r in v.resting && r.id == k.id && r.order == k.order && RestsOn(cfg, v, bar, events, r)
  {
    hide RestsOn, SparedAs;
    r :| r in v.resting && RestsAs(cfg, v, bar, events, r, k);
    SparedKeepsOrder(cfg, v, bar, events, r, k);
  }

  // ---------------------------------------------------------------- every run

  ghost predicate AllWellFormed(ops: seq<Op>) {
    forall op :: op in ops && op.Observe? ==> WellFormedBar(op.bar)
  }

  /** The cancellation was asked for at that time. */
  ghost predicate AskedFor(ops: seq<Op>, id: nat, ts: int) {
    Cancel(id, ts) in ops
  }

  /** A leg of the order's group filled at that time. */
  ghost predicate GroupTraded(orders: map<nat, Order>, log: seq<AccountEvent>, order: Order, id: nat, ts: int) {
    order.group.Some? && exists e :: e in log && e.Fill? && e.ts == ts && e.id != id && e.id in orders && orders[e.id].group == order.group
  }

  /** The order's instrument was liquidated at that time. */
  ghost predicate InstrumentLiquidated(log: seq<AccountEvent>, instrument: nat, ts: int) {
    exists e :: e in log && e.Liquidation? && e.ts == ts && e.instrument == instrument
  }

  /** Why an order that expired or was canceled did so; other events need no reason. */
  ghost predicate Explained(orders: map<nat, Order>, ops: seq<Op>, log: seq<AccountEvent>, e: AccountEvent) {
    match e
    case OrderExpired(id, _) => id in orders && orders[id].tif != Gtc
    case OrderCanceled(id, reason, ts) =>
      (match reason
       case Requested => AskedFor(ops, id, ts)
       case OcoTriggered => id in orders && GroupTraded(orders, log, orders[id], id, ts)
       case VenueCanceled =>
         id in orders && (orders[id].postOnly || orders[id].reduceOnly || InstrumentLiquidated(log, orders[id].instrument, ts)))
    case _ => true
  }

  ghost predicate AllExplained(orders: map<nat, Order>, ops: seq<Op>, log: seq<AccountEvent>) {
    forall e :: e in log ==> Explained(orders, ops, log, e)
  }

  /** A reason given stays one. */
  lemma ExplainedStays(orders: map<nat, Order>, more: map<nat, Order>, ops: seq<Op>, op: Op, log: seq<AccountEvent>, events: seq<AccountEvent>, e: AccountEvent)
    requires Explained(orders, ops, log, e) && forall id :: id in orders ==> id in more && more[id] == orders[id]
    ensures Explained(more, ops + [op], log + events, e)
  {
  }

  lemma FillIsTimed(cfg: Config, v: Venue, bar: Bar, now: int, e: AccountEvent)
    requires WellFormedBar(bar) && Ascending(v.resting) && AllSound(cfg, v.resting)
    requires e in Observed(cfg, v, bar, now).1 && (e.Fill? || e.Liquidation?)
    ensures e.ts == now && e.instrument == bar.instrument
  {
    hide Observed, Ascending, AllSound, Fills, IsPrice, FillCosts.IsFee, MetOn, NetAfterFills;
    var events := Observed(cfg, v, bar, now).1;
    if e.Fill? {
      FillsExactlyWhen(cfg, v, bar, now);
      assert FillFrom(cfg, v, bar, now, events, e);
      FillsArePositive(cfg, v, bar, now);
    } else {
      LiquidationIsPriced(cfg, v, bar, now);
    }
  }

  lemma LegFillIsGroup(cfg: Config, orders: map<nat, Order>, v: Venue, bar: Bar, now: int, log: seq<AccountEvent>, r: Resting, q: Resting, e: AccountEvent)
    requires WellFormedBar(bar) && Ascending(v.resting) && AllSound(cfg, v.resting) && OneCancelsOther.Known(orders, v.resting)
    requires q in v.resting && r in v.resting && e in Observed(cfg, v, bar, now).1 && SiblingFill(q, e, r)
    ensures GroupTraded(orders, log + Observed(cfg, v, bar, now).1, r.order, r.id, now)
  {
    hide Observed, Ascending, AllSound;
    FillIsTimed(cfg, v, bar, now, e);
  }

  /** A leg beaten or released had its group filled. */
  lemma GroupIsFilled(cfg: Config, orders: map<nat, Order>, v: Venue, bar: Bar, now: int, log: seq<AccountEvent>, r: Resting)
    requires WellFormedBar(bar) && Ascending(v.resting) && AllSound(cfg, v.resting) && OneCancelsOther.Known(orders, v.resting) && r in v.resting
    requires var events := Observed(cfg, v, bar, now).1; ClaimedBefore(v.resting, events, r) || Released(v.resting, events, r)
    ensures GroupTraded(orders, log + Observed(cfg, v, bar, now).1, r.order, r.id, now)
  {
    hide Observed, Ascending, AllSound, OneCancelsOther.Known, GroupTraded;
    var events := Observed(cfg, v, bar, now).1;
    if ClaimedBefore(v.resting, events, r) {
      var q, e :| q in v.resting && e in events && SiblingFill(q, e, r) && q.id < r.id;
      LegFillIsGroup(cfg, orders, v, bar, now, log, r, q, e);
    } else {
      var q, e :| q in v.resting && e in events && SiblingFill(q, e, r) && LeavesNothing(q, e, r);
      LegFillIsGroup(cfg, orders, v, bar, now, log, r, q, e);
    }
  }

  lemma LiquidationIsTimed(cfg: Config, v: Venue, bar: Bar, now: int, log: seq<AccountEvent>)
    requires WellFormedBar(bar) && Ascending(v.resting) && AllSound(cfg, v.resting) && Liquidated(Observed(cfg, v, bar, now).1)
    ensures InstrumentLiquidated(log + Observed(cfg, v, bar, now).1, bar.instrument, now)
  {
    hide Observed, Ascending, AllSound;
    var e :| e in Observed(cfg, v, bar, now).1 && e.Liquidation?;
    FillIsTimed(cfg, v, bar, now, e);
  }

  lemma BeatenIsClaimed(cfg: Config, v: Venue, bar: Bar, events: seq<AccountEvent>, r: Resting)
    requires Beaten(cfg, r, bar, MetOn(cfg, v, bar, events, r))
    ensures ClaimedBefore(v.resting, events, r)
  {
    hide Acts, ClaimedBefore, Tally, DrawsBefore, TruncDiv;
  }

  lemma ReportIsExplained(cfg: Config, orders: map<nat, Order>, v: Venue, bar: Bar, now: int, ops: seq<Op>, log: seq<AccountEvent>, r: Resting, e: AccountEvent)
    requires WellFormedBar(bar) && Ascending(v.resting) && AllSound(cfg, v.resting) && OneCancelsOther.Known(orders, v.resting) && r in v.resting
    requires Reported(cfg, v, bar, now, Observed(cfg, v, bar, now).1, r, e)
    ensures Explained(orders, ops, log + Observed(cfg, v, bar, now).1, e)
  {
    hide Observed, Ascending, AllSound, MetOn, Beaten, Acts, Released, Spared, Liquidated, GroupTraded, InstrumentLiquidated, Awake, Fires, Stays, Ends;
    var events := Observed(cfg, v, bar, now).1;
    if e.OrderCanceled? {
      if e.cancel == OcoTriggered {
        if Beaten(cfg, r, bar, MetOn(cfg, v, bar, events, r)) { BeatenIsClaimed(cfg, v, bar, events, r); }
        GroupIsFilled(cfg, orders, v, bar, now, log, r);
      } else if Liquidated(events) {
        LiquidationIsTimed(cfg, v, bar, now, log);
      }
    }
  }

  lemma ObserveIsExplained(cfg: Config, orders: map<nat, Order>, v: Venue, bar: Bar, now: int, ops: seq<Op>, log: seq<AccountEvent>)
    requires WellFormedBar(bar) && Ascending(v.resting) && AllSound(cfg, v.resting) && OneCancelsOther.Known(orders, v.resting)
    ensures forall e :: e in Observed(cfg, v, bar, now).1 ==> Explained(orders, ops, log + Observed(cfg, v, bar, now).1, e)
  {
    hide Observed, Ascending, AllSound, OneCancelsOther.Known, Reported;
    var events := Observed(cfg, v, bar, now).1;
    EndsExactlyWhen(cfg, v, bar, now);
    forall e | e in events ensures Explained(orders, ops, log + events, e) {
      if !e.Fill? && !e.FundingSettlement? && !e.Liquidation? {
        assert ReportedOf(cfg, v, bar, now, events, e);
        var r :| r in v.resting && Reported(cfg, v, bar, now, events, r, e);
        ReportIsExplained(cfg, orders, v, bar, now, ops, log, r, e);
      }
    }
  }

  lemma AskIsExplained(cfg: Config, orders: map<nat, Order>, v: Venue, ops: seq<Op>, op: Op, log: seq<AccountEvent>)
    requires !op.Observe?
    ensures forall e :: e in Exec(cfg, v, op).1 ==> Explained(orders, ops + [op], log, e)
  {
    hide Rejection, IndexOf;
  }

  /** Books know every resting order. */
  lemma BooksKnow(orders: map<nat, Order>, v: Venue, log: seq<AccountEvent>)
    requires Books(orders, v, log)
    ensures OneCancelsOther.Known(orders, v.resting)
  {
    forall r | r in v.resting ensures r.id in orders && orders[r.id] == r.order { assert Told(orders, r, log); }
  }

  /** Over every run, whatever expired was an immediate order, and whatever was canceled was asked to be, beaten in its group, refused, useless or liquidated. */
  lemma {:induction false} EveryEndIsExplained(cfg: Config, cash: Option<int>, ops: seq<Op>)
    requires FreshIds(ops) && AllWellFormed(ops)
    ensures AllExplained(Submissions(ops), ops, RunOps(cfg, cash, ops).1)
  {
    hide Exec, Books, Explained, Ascending, AllSound, OneCancelsOther.Known;
    if ops != [] {
      var init, op := ops[..|ops| - 1], ops[|ops| - 1];
      assert ops == init + [op];
      EveryEndIsExplained(cfg, cash, init);
      EveryRunKeepsTheBooks(cfg, cash, init);
      var (v, log) := RunOps(cfg, cash, init);
      var events := Exec(cfg, v, op).1;
      assert op in ops;
      BooksKnow(Submissions(init), v, log);
      if op.Submit? { SubmissionsAreOlder(init, op.id); }
      forall e | e in log + events ensures Explained(Submissions(ops), ops, log + events, e) {
        if e in log {
          ExplainedStays(Submissions(init), Submissions(ops), init, op, log, events, e);
        } else {
          ExecIsExplained(cfg, Submissions(ops), v, init, op, log, e);
        }
      }
    }
  }

  lemma ExecIsExplained(cfg: Config, orders: map<nat, Order>, v: Venue, ops: seq<Op>, op: Op, log: seq<AccountEvent>, e: AccountEvent)
    requires op.Observe? ==> WellFormedBar(op.bar) && Ascending(v.resting) && AllSound(cfg, v.resting) && OneCancelsOther.Known(orders, v.resting)
    requires e in Exec(cfg, v, op).1
    ensures Explained(orders, ops + [op], log + Exec(cfg, v, op).1, e)
  {
    hide Observed, Submitted, Canceled, Explained;
    if op.Observe? {
      ObserveIsExplained(cfg, orders, v, op.bar, op.now, ops + [op], log);
    } else {
      AskIsExplained(cfg, orders, v, ops, op, log + Exec(cfg, v, op).1);
    }
  }

  lemma {:induction false} TerminalEvent(log: seq<AccountEvent>, id: nat) returns (e: AccountEvent)
    requires Terminals(log, id) > 0
    ensures e in log && e.Terminal() && e.id == id
  {
    e := log[|log| - 1];
    if !(e.Terminal() && e.id == id) { e := TerminalEvent(log[..|log| - 1], id); }
  }

  /** Good till canceled, and with no term that could end it but its fill. */
  predicate Plain(order: Order) {
    order.tif == Gtc && order.group.None? && !order.postOnly && !order.reduceOnly
  }

  /** An accepted plain order that nobody asks to cancel rests until a fill completes it, unless its instrument is liquidated. */
  lemma PlainOrdersRestUntilFilled(cfg: Config, cash: Option<int>, ops: seq<Op>, id: nat)
    requires FreshIds(ops) && AllWellFormed(ops) && id in Submissions(ops) && Plain(Submissions(ops)[id])
    requires forall ts :: !AskedFor(ops, id, ts)
    requires forall ts :: !InstrumentLiquidated(RunOps(cfg, cash, ops).1, Submissions(ops)[id].instrument, ts)
    requires Accepts(RunOps(cfg, cash, ops).1, id) == 1
    ensures var (v, log) := RunOps(cfg, cash, ops);
            OnBook(v.resting, id) || exists e :: e in log && e.Fill? && e.id == id && e.complete
  {
    hide RunOps, Submissions, InstrumentLiquidated, AskedFor, Ascending, AllSound, Tally;
    var (v, log) := RunOps(cfg, cash, ops);
    EveryEndIsExplained(cfg, cash, ops);
    EveryRunKeepsTheBooks(cfg, cash, ops);
    assert Balanced(Submissions(ops), v, log, id);
    RestsAtMostOnce(v.resting, id);
    if Rests(v.resting, id) != 1 {
      var e := TerminalEvent(log, id);
      assert Explained(Submissions(ops), ops, log, e);
    }
  }
}
