/**
 * Trades reconstructed from the fill log. The analytics keep their own average-cost position per
 * instrument and close a trade whenever it returns to flat; summed over a log that ends flat,
 * their profits are exactly the portfolio's realized profit minus its fees.
 */
module TradeLedger {
  import opened Prelude
  import opened Trading
  import opened AverageCost
  import opened Portfolio

  // ---------------------------------------------------------------- the reference fold

  /** Positions and realized profit of a fill log, with no account around them. */
  datatype Ledger = Ledger(positions: map<nat, Position>, realized: int)

  function At(positions: map<nat, Position>, i: nat): Position {
    if i in positions then positions[i] else FLAT
  }

  function Signed(f: FillRecord): int {
    f.side.Sign() * f.qty
  }

  function Traded(l: Ledger, f: FillRecord): Ledger {
    var p := At(l.positions, f.instrument);
    Ledger(l.positions[f.instrument := NextPosition(p, Signed(f), f.price)],
           l.realized + RealizedBy(p, Signed(f), f.price))
  }

  function TradedAll(l: Ledger, fills: seq<FillRecord>): Ledger {
    if fills == [] then l else Traded(TradedAll(l, fills[..|fills| - 1]), fills[|fills| - 1])
  }

  lemma TradedPush(l: Ledger, fills: seq<FillRecord>, f: FillRecord)
    ensures TradedAll(l, fills + [f]) == Traded(TradedAll(l, fills), f)
  {
    hide Traded;
    assert (fills + [f])[..|fills|] == fills;
  }

  const EMPTY := Ledger(map[], 0)

  function FeeOf(): FillRecord -> int {
    (f: FillRecord) => f.fee
  }

  ghost predicate Mirrors(a: Account, l: Ledger, instruments: nat) {
    && |a.positions| == instruments
    && (forall i: nat :: At(l.positions, i) == if i < instruments then a.positions[i] else FLAT)
    && l.realized == a.realized
    && Tally(a.fills, FeeOf()) == a.tradingFees
    && (forall f :: f in a.fills ==> f.instrument < instruments)
  }

  lemma MirrorStep(a: Account, l: Ledger, instruments: nat, e: AccountEvent)
    requires Mirrors(a, l, instruments) && !e.Liquidation? && Catalogued(e, instruments)
    ensures var b := Applied(a, e);
            if e.Fill? then
              var f := FillRecord(e.id, e.instrument, e.side, e.price, e.qty, Total(e.costs), e.ts);
              b.fills == a.fills + [f] && Mirrors(b, Traded(l, f), instruments)
            else
              b.fills == a.fills && Mirrors(b, l, instruments)
  {
    hide NextPosition, RealizedBy, Total, Without, Tally;
    if e.Fill? {
      var f := FillRecord(e.id, e.instrument, e.side, e.price, e.qty, Total(e.costs), e.ts);
      TallyPush(a.fills, f, FeeOf());
      assert At(l.positions, e.instrument) == a.positions[e.instrument];
      var b, m := Applied(a, e), Traded(l, f);
      forall i: nat ensures At(m.positions, i) == if i < instruments then b.positions[i] else FLAT {
        assert At(l.positions, i) == if i < instruments then a.positions[i] else FLAT;
      }
    }
  }

  lemma FreshMirrors(instruments: nat, cash: int)
    ensures var a := AppliedAll(NewAccount(instruments, cash), []);
            Mirrors(a, TradedAll(EMPTY, a.fills), instruments)
  {
  }

  /** On a liquidation-free event stream the portfolio is this fold of its own fill log. */
  lemma {:induction false} PortfolioIsLedger(instruments: nat, cash: int, events: seq<AccountEvent>)
    requires forall e :: e in events ==> !e.Liquidation? && Catalogued(e, instruments)
    ensures var a := AppliedAll(NewAccount(instruments, cash), events);
            Mirrors(a, TradedAll(EMPTY, a.fills), instruments)
  {
    hide Applied, Traded, Mirrors, NewAccount, Catalogued;
    if events == [] {
      FreshMirrors(instruments, cash);
    } else {
      var init, e := events[..|events| - 1], events[|events| - 1];
      assert events == init + [e];
      PortfolioIsLedger(instruments, cash, init);
      var b := AppliedAll(NewAccount(instruments, cash), init);
      MirrorStep(b, TradedAll(EMPTY, b.fills), instruments, e);
      var fills := Applied(b, e).fills;
      assert e.Fill? ==> fills[..|fills| - 1] == b.fills;
    }
  }

  // ---------------------------------------------------------------- flat-to-flat trades

  datatype Episode = Episode(net: int, avg: int, realized: int, fees: int)

  const NO_EPISODE := Episode(0, 0, 0, 0)

  /** Apply one fill; a fill that returns the position to flat closes a trade and yields its profit. */
  function ApplyFill(p: Episode, side: Side, price: int, qty: int, fee: int): (Episode, Option<int>) {
    if qty == 0 then
      (p, None)
    else
      var signed := side.Sign() * qty;
      var fees := p.fees + fee;
      var q :=
        if p.net == 0 || (p.net > 0) == (signed > 0) then
          Episode(p.net + signed, AverageEntry(Abs(p.net), p.avg, Abs(signed), price), p.realized, fees)
        else
          var closing, dir := Min(Abs(signed), Abs(p.net)), if p.net > 0 then 1 else -1;
          var net := p.net + signed;
          Episode(net,
                  if net == 0 then 0 else if (net > 0) != (p.net > 0) then price else p.avg,
                  p.realized + closing * (price - p.avg) * dir,
                  fees);
      if q.net == 0 then (q.(realized := 0, fees := 0), Some(q.realized - q.fees)) else (q, None)
  }

  function EpisodeAt(m: map<nat, Episode>, i: nat): Episode {
    if i in m then m[i] else NO_EPISODE
  }

  /** Open episodes and completed trade profits after a fill log. */
  function Reconstructed(fills: seq<FillRecord>): (map<nat, Episode>, seq<int>) {
    if fills == [] then
      (map[], [])
    else
      var (open, pnls) := Reconstructed(fills[..|fills| - 1]);
      var f := fills[|fills| - 1];
      var (q, pnl) := ApplyFill(EpisodeAt(open, f.instrument), f.side, f.price, f.qty, f.fee);
      (open[f.instrument := q], pnls + Listed(pnl))
  }

  /** The loop over the fill log, with the map of positions updated in place. */
  method FromFills(fills: seq<FillRecord>) returns (pnls: seq<int>, totalFees: int)
    ensures pnls == Reconstructed(fills).1
    ensures totalFees == Tally(fills, FeeOf())
  {
    hide ApplyFill;
    var positions: map<nat, Episode> := map[];
    pnls, totalFees := [], 0;
    for i := 0 to |fills|
      invariant (positions, pnls) == Reconstructed(fills[..i])
      invariant totalFees == Tally(fills[..i], FeeOf())
    {
      PrefixStep(fills, i);
      var f := fills[i];
      totalFees := totalFees + f.fee;
      var position := EpisodeAt(positions, f.instrument);
      var (next, pnl) := ApplyFill(position, f.side, f.price, f.qty, f.fee);
      positions := positions[f.instrument := next];
      assert pnl.None? ==> pnls + Listed(pnl) == pnls;
      if pnl.Some? {
        pnls := pnls + [pnl.value];
      }
    }
    assert fills[..|fills|] == fills;
  }

  // ---------------------------------------------------------------- agreement

  /** The analytics' position makes the portfolio's transition, and its profit is conserved. */
  lemma EpisodeTransition(p: Episode, side: Side, price: int, qty: int, fee: int)
    requires qty != 0
    ensures var (q, pnl) := ApplyFill(p, side, price, qty, fee);
            var signed := side.Sign() * qty;
            && Position(q.net, q.avg) == NextPosition(Position(p.net, p.avg), signed, price)
            && (q.net == 0 ==> q.realized == q.fees == 0)
            && q.realized - q.fees + pnl.GetOr(0)
               == p.realized - p.fees + RealizedBy(Position(p.net, p.avg), signed, price) - fee
  {
    hide AverageEntry;
    SignedZero(side, qty);
  }

  function Identity(): int -> int {
    (x: int) => x
  }

  function OpenPnl(open: map<nat, Episode>): nat -> int {
    (i: nat) => EpisodeAt(open, i).realized - EpisodeAt(open, i).fees
  }

  ghost predicate Conserved(open: map<nat, Episode>, pnls: seq<int>, l: Ledger, fees: int, instruments: nat) {
    && (forall i: nat :: Position(EpisodeAt(open, i).net, EpisodeAt(open, i).avg) == At(l.positions, i))
    && (forall i: nat :: EpisodeAt(open, i).net == 0 ==> EpisodeAt(open, i).realized == EpisodeAt(open, i).fees == 0)
    && Tally(pnls, Identity()) + SumTo(instruments, OpenPnl(open)) == l.realized - fees
  }

  lemma ConservedStep(open: map<nat, Episode>, pnls: seq<int>, l: Ledger, fees: int, instruments: nat, f: FillRecord)
    requires Conserved(open, pnls, l, fees, instruments) && f.qty != 0 && f.instrument < instruments
    ensures var (q, pnl) := ApplyFill(EpisodeAt(open, f.instrument), f.side, f.price, f.qty, f.fee);
            Conserved(open[f.instrument := q], pnls + Listed(pnl), Traded(l, f), fees + f.fee, instruments)
  {
    hide ApplyFill, NextPosition, RealizedBy, Tally;
    var p := EpisodeAt(open, f.instrument);
    var (q, pnl) := ApplyFill(p, f.side, f.price, f.qty, f.fee);
    assert Position(p.net, p.avg) == At(l.positions, f.instrument);
    EpisodeTransition(p, f.side, f.price, f.qty, f.fee);
    TallyListed(pnls, pnl, Identity());
    SumToPointChange(instruments, OpenPnl(open), OpenPnl(open[f.instrument := q]), f.instrument);
    hide SumTo;
    var more, m := open[f.instrument := q], Traded(l, f);
    forall i: nat
      ensures Position(EpisodeAt(more, i).net, EpisodeAt(more, i).avg) == At(m.positions, i)
      ensures EpisodeAt(more, i).net == 0 ==> EpisodeAt(more, i).realized == EpisodeAt(more, i).fees == 0
    {
      assert Position(EpisodeAt(open, i).net, EpisodeAt(open, i).avg) == At(l.positions, i);
      assert EpisodeAt(open, i).net == 0 ==> EpisodeAt(open, i).realized == EpisodeAt(open, i).fees == 0;
    }
  }

  /** Step by step, completed profits plus what the open episodes carry is realized profit minus fees. */
  lemma {:induction false} ReconstructionConserves(fills: seq<FillRecord>, instruments: nat)
    requires forall f :: f in fills ==> f.qty != 0 && f.instrument < instruments
    ensures var (open, pnls) := Reconstructed(fills);
            Conserved(open, pnls, TradedAll(EMPTY, fills), Tally(fills, FeeOf()), instruments)
  {
    if fills == [] {
      SumToZero(instruments, OpenPnl(map[]));
    } else {
      hide ApplyFill, Traded, Conserved;
      var init, f := fills[..|fills| - 1], fills[|fills| - 1];
      assert fills == init + [f];
      ReconstructionConserves(init, instruments);
      var (open, pnls) := Reconstructed(init);
      ConservedStep(open, pnls, TradedAll(EMPTY, init), Tally(init, FeeOf()), instruments, f);
    }
  }

  // ---------------------------------------------------------------- where trades begin and end

  function SignedOn(i: nat): FillRecord -> int {
    (f: FillRecord) => if f.instrument == i then Signed(f) else 0
  }

  /** What is held of an instrument after the fills. */
  function NetOn(fills: seq<FillRecord>, i: nat): int {
    Tally(fills, SignedOn(i))
  }

  /** Profit less fees of an instrument's fills since it was last flat. */
  function SinceFlat(fills: seq<FillRecord>, i: nat): int {
    if fills == [] then
      0
    else
      var init, f := fills[..|fills| - 1], fills[|fills| - 1];
      if f.instrument != i then
        SinceFlat(init, i)
      else
        (if NetOn(init, i) == 0 then 0 else SinceFlat(init, i))
        + RealizedBy(At(TradedAll(EMPTY, init).positions, i), Signed(f), f.price) - f.fee
  }

  /** A trade ends with each fill that leaves its instrument flat, and is worth what was made since it was flat before. */
  function FlatTrades(fills: seq<FillRecord>): seq<int> {
    if fills == [] then
      []
    else
      var f := fills[|fills| - 1];
      FlatTrades(fills[..|fills| - 1]) + if NetOn(fills, f.instrument) == 0 then [SinceFlat(fills, f.instrument)] else []
  }

  /** The open episode of every instrument is what was made of it since it was last flat. */
  ghost predicate EpisodesAre(open: map<nat, Episode>, fills: seq<FillRecord>) {
    forall i: nat :: EpisodeIs(EpisodeAt(open, i), fills, i)
  }

  ghost predicate EpisodeIs(p: Episode, fills: seq<FillRecord>, i: nat) {
    && p.net == NetOn(fills, i) && Position(p.net, p.avg) == At(TradedAll(EMPTY, fills).positions, i)
    && p.realized - p.fees == if NetOn(fills, i) == 0 then 0 else SinceFlat(fills, i)
  }

  lemma EpisodeCloses(p: Episode, side: Side, price: int, qty: int, fee: int)
    requires qty != 0
    ensures var (q, pnl) := ApplyFill(p, side, price, qty, fee);
            && q.net == p.net + side.Sign() * qty && (pnl.Some? <==> q.net == 0) && (pnl.Some? ==> q.realized == q.fees == 0)
  {
    hide AverageEntry;
  }

  lemma TradesStep(open: map<nat, Episode>, init: seq<FillRecord>, f: FillRecord)
    requires EpisodesAre(open, init) && f.qty != 0
    ensures var (q, pnl) := ApplyFill(EpisodeAt(open, f.instrument), f.side, f.price, f.qty, f.fee);
            && EpisodesAre(open[f.instrument := q], init + [f])
            && FlatTrades(init + [f]) == FlatTrades(init) + Listed(pnl)
  {
    hide ApplyFill, NextPosition, RealizedBy, Tally;
    var p, fills := EpisodeAt(open, f.instrument), init + [f];
    var (q, pnl) := ApplyFill(p, f.side, f.price, f.qty, f.fee);
    assert fills[..|init|] == init && EpisodeIs(p, init, f.instrument);
    EpisodeTransition(p, f.side, f.price, f.qty, f.fee);
    EpisodeCloses(p, f.side, f.price, f.qty, f.fee);
    TradedPush(EMPTY, init, f);
    var more := open[f.instrument := q];
    forall i: nat ensures EpisodeIs(EpisodeAt(more, i), fills, i) {
      TallyPush(init, f, SignedOn(i));
      assert EpisodeIs(EpisodeAt(open, i), init, i);
    }
    TallyPush(init, f, SignedOn(f.instrument));
  }

  /** The reconstructed trades are exactly these: one a return to flat, at its own profit. */
  lemma {:induction false} TradesEndFlat(fills: seq<FillRecord>)
    requires forall f :: f in fills ==> f.qty != 0
    ensures EpisodesAre(Reconstructed(fills).0, fills) && Reconstructed(fills).1 == FlatTrades(fills)
  {
    hide ApplyFill, EpisodesAre;
    if fills == [] {
      NoEpisodes();
    } else {
      var init, f := fills[..|fills| - 1], fills[|fills| - 1];
      assert fills == init + [f];
      TradesEndFlat(init);
      TradesStep(Reconstructed(init).0, init, f);
    }
  }

  lemma NoEpisodes()
    ensures EpisodesAre(map[], [])
  {
  }

  /**
   * Trade reconstruction agrees with the engine: on a liquidation-free stream of non-empty fills
   * that ends flat everywhere, the completed trades' profits sum to realized profit minus fees.
   */
  lemma TradesReconcile(instruments: nat, cash: int, events: seq<AccountEvent>)
    requires forall e :: e in events ==> !e.Liquidation? && Catalogued(e, instruments) && (e.Fill? ==> e.qty > 0)
    requires forall p :: p in AppliedAll(NewAccount(instruments, cash), events).positions ==> p.net == 0
    ensures var a := AppliedAll(NewAccount(instruments, cash), events);
            Tally(Reconstructed(a.fills).1, Identity()) == a.realized - a.tradingFees
  {
    hide AppliedAll, TradedAll, Reconstructed;
    var a := AppliedAll(NewAccount(instruments, cash), events);
    PortfolioIsLedger(instruments, cash, events);
    FillsAreNonEmpty(instruments, cash, events);
    ReconstructionConserves(a.fills, instruments);
    var open := Reconstructed(a.fills).0;
    forall i: nat | i < instruments ensures OpenPnl(open)(i) == 0 {
      assert Position(EpisodeAt(open, i).net, EpisodeAt(open, i).avg) == At(TradedAll(EMPTY, a.fills).positions, i);
      assert a.positions[i] in a.positions;
    }
    SumToZero(instruments, OpenPnl(open));
  }

  lemma {:induction false} FillsAreNonEmpty(instruments: nat, cash: int, events: seq<AccountEvent>)
    requires forall e :: e in events ==> (e.Fill? ==> e.qty > 0)
    ensures forall f :: f in AppliedAll(NewAccount(instruments, cash), events).fills ==> f.qty > 0
  {
    if events != [] {
      hide NextPosition, RealizedBy, Total;
      assert events == events[..|events| - 1] + [events[|events| - 1]];
      FillsAreNonEmpty(instruments, cash, events[..|events| - 1]);
    }
  }
}
