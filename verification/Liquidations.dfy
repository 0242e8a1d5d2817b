/**
 * What liquidations book. With a positive threshold, adverse slippage and closes that are not
 * negative, every liquidation realizes a loss: the liquidation profit of a run is zero exactly when
 * nothing was liquidated.
 */
module Liquidations {
  import opened Prelude
  import opened Trading
  import opened AverageCost
  import opened Exchange
  import opened Lifecycle
  import opened Portfolio
  import opened Sync

  ghost predicate Liquidated(events: seq<AccountEvent>) {
    exists e :: e in events && e.Liquidation?
  }

  /** Positions are liquidated at a move against them, and never at a better price than the close. */
  predicate LosesOnly(cfg: Config) {
    cfg.slippageBps >= 0 && (cfg.liquidationBps.Some? ==> cfg.liquidationBps.value > 0)
  }

  lemma SomeMove(adverse: int, avg: int, bps: int)
    requires avg > 0 && bps > 0 && Max(adverse, 0) * 10_000 / avg >= bps
    ensures adverse > 0
  {
  }

  lemma AdverseProduct(qty: int, move: int)
    requires qty > 0 && move > 0
    ensures qty * -move * 1 < 0 && qty * move * -1 < 0
  {
    MulMonotone(1, move, qty);
  }

  lemma SlippedAgainst(cfg: Config, close: int, side: Side)
    requires cfg.slippageBps >= 0 && close >= 0
    ensures if side.Buy? then Slipped(cfg, close, side) >= close else Slipped(cfg, close, side) <= close
  {
    MulMonotone(0, close, cfg.slippageBps);
    TruncDivMonotone(0, close * cfg.slippageBps, 10_000);
  }

  /** A liquidation realizes a loss. */
  lemma LiquidationLoses(cfg: Config, shadow: Shadow, bar: Bar)
    requires LosesOnly(cfg) && bar.close >= 0 && MustLiquidate(cfg, shadow, bar.close)
    ensures var f := LiquidationFill(cfg, shadow, bar);
            RealizedBy(shadow.Held(), f.side.Sign() * f.qty, f.price) < 0
  {
    var f := LiquidationFill(cfg, shadow, bar);
    var adverse := if shadow.net > 0 then shadow.avg - bar.close else bar.close - shadow.avg;
    SomeMove(adverse, Abs(shadow.avg), cfg.liquidationBps.value);
    SlippedAgainst(cfg, bar.close, f.side);
    hide Slipped;
    AdverseProduct(f.qty, if shadow.net > 0 then shadow.avg - f.price else f.price - shadow.avg);
  }

  lemma {:induction false} OthersBookNothing(a: Account, events: seq<AccountEvent>)
    requires !Liquidated(events)
    ensures AppliedAll(a, events).liquidationPnl == a.liquidationPnl
  {
    if events != [] {
      hide NextPosition, RealizedBy, Total, Without;
      var init, e := events[..|events| - 1], events[|events| - 1];
      assert events == init + [e];
      OthersBookNothing(a, init);
    }
  }

  lemma AppliedFirst(a: Account, e: AccountEvent, rest: seq<AccountEvent>)
    ensures AppliedAll(a, [e] + rest) == AppliedAll(Applied(a, e), rest)
  {
    hide Applied;
    AppliedConcat(a, [e], rest);
    assert [e][..0] == [] && AppliedAll(a, []) == a;
  }

  /** The close of a bar lowers the liquidation profit exactly when it liquidates. */
  lemma CloseBooksLoss(cfg: Config, v: Venue, a: Account, bar: Bar, now: int)
    requires MoneyInStep(v, a) && LosesOnly(cfg) && bar.close >= 0
    ensures var events := CheckLiquidation(cfg, v, bar, now).1;
            var b := AppliedAll(a, events);
            if Liquidated(events) then b.liquidationPnl < a.liquidationPnl else b.liquidationPnl == a.liquidationPnl
  {
    hide Slipped, FeeCosts, SettleOne, DropInstrument, NextPosition, RealizedBy, AppliedAll, Total;
    var shadow := ShadowOf(v.shadows, bar.instrument);
    var events := CheckLiquidation(cfg, v, bar, now).1;
    if MustLiquidate(cfg, shadow, bar.close) {
      var canceled := DropInstrument(v.resting, bar.instrument, now).1;
      DropEvents(v.resting, bar.instrument, now);
      LiquidationLoses(cfg, shadow, bar);
      assert shadow.Held() == PositionAt(a, bar.instrument);
      assert events == [events[0]] + canceled && events[0] in events;
      AppliedFirst(a, events[0], canceled);
      OthersBookNothing(Applied(a, events[0]), canceled);
    } else {
      OthersBookNothing(a, events);
    }
  }

  lemma BarBooksLoss(cfg: Config, v: Venue, a: Account, bar: Bar, now: int)
    requires MoneyInStep(v, a) && |a.positions| == |cfg.specs| && AllSound(cfg, v.resting)
    requires LosesOnly(cfg) && bar.close >= 0
    ensures var events := Observed(cfg, v, bar, now).1;
            var b := AppliedAll(a, events);
            if Liquidated(events) then b.liquidationPnl < a.liquidationPnl else b.liquidationPnl == a.liquidationPnl
  {
    hide Observed, CheckLiquidation, BeforeClose, AppliedAll;
    var (funded, before) := BeforeClose(cfg, v, bar, now);
    ClosedAfter(cfg, v, bar, now);
    QuietBeforeClose(cfg, v, bar, now);
    BeforeCloseKeepsMoney(cfg, v, a, bar, now);
    OthersBookNothing(a, before);
    CloseBooksLoss(cfg, funded, AppliedAll(a, before), bar, now);
    AppliedConcat(a, before, CheckLiquidation(cfg, funded, bar, now).1);
    LiquidatedLater(before, CheckLiquidation(cfg, funded, bar, now).1);
  }

  lemma LiquidatedLater(before: seq<AccountEvent>, after: seq<AccountEvent>)
    ensures Liquidated(before + after) <==> Liquidated(before) || Liquidated(after)
  {
    if Liquidated(before) {
      var e :| e in before && e.Liquidation?;
      assert e in before + after;
    }
    if Liquidated(after) {
      var e :| e in after && e.Liquidation?;
      assert e in before + after;
    }
  }

  ghost predicate ClosesNonNegative(ops: seq<Op>) {
    forall op :: op in ops && op.Observe? ==> op.bar.close >= 0
  }

  lemma EventMovesCashAlike(a: Account, b: Account, e: AccountEvent)
    requires a == b.(cash := a.cash)
    ensures Applied(a, e) == Applied(b, e).(cash := Applied(a, e).cash)
  {
    hide NextPosition, RealizedBy, Total, Without;
  }

  /** What the account started with decides nothing but its cash. */
  lemma {:induction false} StartDecidesCash(a: Account, b: Account, events: seq<AccountEvent>)
    requires a == b.(cash := a.cash)
    ensures AppliedAll(a, events) == AppliedAll(b, events).(cash := AppliedAll(a, events).cash)
  {
    if events != [] {
      hide Applied;
      var init := events[..|events| - 1];
      StartDecidesCash(a, b, init);
      EventMovesCashAlike(AppliedAll(a, init), AppliedAll(b, init), events[|events| - 1]);
    }
  }

  /** Over every run: the liquidation profit is never positive, and zero exactly when nothing was liquidated. */
  lemma RunBooksLosses(cfg: Config, cash: int, mirrored: Option<int>, ops: seq<Op>)
    requires FreshIds(ops) && LosesOnly(cfg) && ClosesNonNegative(ops)
    ensures var log := RunOps(cfg, mirrored, ops).1;
            var pnl := Rebuilt(cfg, cash, log).liquidationPnl;
            pnl <= 0 && (pnl == 0 <==> !Liquidated(log))
  {
    hide RunOps, Liquidated, LosesOnly;
    var same := mirrored.GetOr(cash);
    MirroredRunBooksLosses(cfg, same, mirrored, ops);
    StartDecidesCash(NewAccount(|cfg.specs|, same), NewAccount(|cfg.specs|, cash), RunOps(cfg, mirrored, ops).1);
  }

  lemma {:induction false} MirroredRunBooksLosses(cfg: Config, cash: int, mirrored: Option<int>, ops: seq<Op>)
    requires FreshIds(ops) && LosesOnly(cfg) && ClosesNonNegative(ops) && (mirrored.Some? ==> mirrored.value == cash)
    ensures var log := RunOps(cfg, mirrored, ops).1;
            var pnl := Rebuilt(cfg, cash, log).liquidationPnl;
            pnl <= 0 && (pnl == 0 <==> !Liquidated(log))
  {
    if ops != [] {
      hide Exec, InStep, Books, LosesOnly, MoneyInStep, Liquidated;
      var init, op := ops[..|ops| - 1], ops[|ops| - 1];
      assert ops == init + [op];
      assert op in ops;
      MirroredRunBooksLosses(cfg, cash, mirrored, init);
      EveryRunKeepsTheBooks(cfg, mirrored, init);
      EveryRunStaysInStep(cfg, cash, mirrored, init);
      var (v, log) := RunOps(cfg, mirrored, init);
      var events := Exec(cfg, v, op).1;
      AppliedConcat(NewAccount(|cfg.specs|, cash), log, events);
      LiquidatedLater(log, events);
      OpBooksLoss(cfg, v, Rebuilt(cfg, cash, log), op);
    } else {
      assert !Liquidated([]);
    }
  }

  lemma OpBooksLoss(cfg: Config, v: Venue, a: Account, op: Op)
    requires InStep(v, a) && |a.positions| == |cfg.specs| && AllSound(cfg, v.resting)
    requires LosesOnly(cfg) && (op.Observe? ==> op.bar.close >= 0)
    ensures var events := Exec(cfg, v, op).1;
            var b := AppliedAll(a, events);
            if Liquidated(events) then b.liquidationPnl < a.liquidationPnl else b.liquidationPnl == a.liquidationPnl
  {
    hide Observed, AppliedAll, LosesOnly, MoneyInStep;
    match op
    case Submit(_, _, _) =>
      SubmitEffect(cfg, v, op);
      OthersBookNothing(a, Exec(cfg, v, op).1);
    case Cancel(_, _) =>
      CancelEffect(cfg, v, op);
      OthersBookNothing(a, Exec(cfg, v, op).1);
    case Observe(bar, now) => BarBooksLoss(cfg, v, a, bar, now);
  }
}
