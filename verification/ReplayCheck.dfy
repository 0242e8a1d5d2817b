/**
 * Comparing a saved report with its replay. For a well-formed saved run (fills in time order, of
 * positive quantity, charged the basis-point fee) the fills and fees always compare equal; what
 * remains is the realized profit, which is compared when no liquidation profit was booked.
 */
module ReplayCheck {
  import opened Prelude
  import opened Trading
  import opened AverageCost
  import opened Portfolio
  import opened Sorting
  import opened TradeLedger
  import opened Replay

  datatype Issue =
    | FillDiffers(index: nat, saved: FillRecord, replayed: FillRecord)
    | FillCount(savedFills: nat, replayedFills: nat)
    | FillFees(savedFees: int, replayedFees: int)
    | RealizedPnl(savedPnl: int, replayedPnl: int)

  /** The canonical order of the comparison: time, instrument, side, price, quantity. */
  predicate Precedes(f: FillRecord, g: FillRecord) {
    if f.ts != g.ts then f.ts < g.ts
    else if f.instrument != g.instrument then f.instrument < g.instrument
    else if f.side != g.side then f.side == Sell
    else if f.price != g.price then f.price < g.price
    else f.qty < g.qty
  }

  function FillIssues(saved: seq<FillRecord>, replayed: seq<FillRecord>): seq<Issue>
    requires |saved| == |replayed|
  {
    if saved == [] then
      []
    else
      var i := |saved| - 1;
      FillIssues(saved[..i], replayed[..i])
      + if SameTrade(saved[i], replayed[i]) && saved[i].fee == replayed[i].fee then [] else [FillDiffers(i, saved[i], replayed[i])]
  }

  /** Every divergence between a saved account and the account of its replay. */
  function DiffReports(original: Account, replay: Account): seq<Issue> {
    var saved, replayed := StableSort(original.fills, Precedes), StableSort(replay.fills, Precedes);
    var fees := Tally(original.fills, FeeOf());
    (if |saved| == |replayed| then FillIssues(saved, replayed) else [FillCount(|saved|, |replayed|)])
    + (if replay.tradingFees != fees then [FillFees(fees, replay.tradingFees)] else [])
    + (if original.liquidationPnl == 0 && original.realized != replay.realized
       then [RealizedPnl(original.realized, replay.realized)] else [])
  }

  // ---------------------------------------------------------------- the fills compare equal

  function Unnumbered(f: FillRecord): FillRecord {
    f.(id := 0)
  }

  function AllUnnumbered(s: seq<FillRecord>): (r: seq<FillRecord>)
    ensures |r| == |s| && forall i :: 0 <= i < |s| ==> r[i] == Unnumbered(s[i])
  {
    seq(|s|, i requires 0 <= i < |s| => Unnumbered(s[i]))
  }

  lemma {:induction false} InsertUnnumbered(x: FillRecord, s: seq<FillRecord>)
    ensures AllUnnumbered(Insert(x, s, Precedes)) == Insert(Unnumbered(x), AllUnnumbered(s), Precedes)
  {
    if s == [] || !Precedes(s[0], x) {
      assert AllUnnumbered([x] + s) == [Unnumbered(x)] + AllUnnumbered(s);
    } else {
      InsertUnnumbered(x, s[1..]);
      assert AllUnnumbered(s)[1..] == AllUnnumbered(s[1..]);
      assert AllUnnumbered([s[0]] + Insert(x, s[1..], Precedes)) == [Unnumbered(s[0])] + AllUnnumbered(Insert(x, s[1..], Precedes));
    }
  }

  /** Order ids play no part in the canonical order. */
  lemma {:induction false} SortUnnumbered(s: seq<FillRecord>)
    ensures AllUnnumbered(StableSort(s, Precedes)) == StableSort(AllUnnumbered(s), Precedes)
  {
    if s != [] {
      SortUnnumbered(s[1..]);
      assert AllUnnumbered(s)[1..] == AllUnnumbered(s[1..]);
      InsertUnnumbered(s[0], StableSort(s[1..], Precedes));
    }
  }

  lemma PrecedesIsKeyOrder()
    ensures KeyOrder(Precedes)
  {
  }

  /** The fee every fill of a well-formed report carries. */
  ghost predicate ChargedBps(f: FillRecord, feeBps: int) {
    f.fee == MulBps(f.price * f.qty, feeBps)
  }

  ghost predicate AllCharged(fills: seq<FillRecord>, feeBps: int) {
    forall f :: f in fills ==> ChargedBps(f, feeBps)
  }

  /** Fills that differ in order and numbering alone compare equal position by position. */
  lemma SameSortedFills(s: seq<FillRecord>, t: seq<FillRecord>, feeBps: int)
    requires multiset(AllUnnumbered(s)) == multiset(AllUnnumbered(t)) && AllCharged(s, feeBps)
    ensures |StableSort(s, Precedes)| == |StableSort(t, Precedes)|
    ensures AllUnnumbered(StableSort(s, Precedes)) == AllUnnumbered(StableSort(t, Precedes))
  {
    var a, b := StableSort(AllUnnumbered(s), Precedes), StableSort(AllUnnumbered(t), Precedes);
    hide StableSort, MulBps;
    SortUnnumbered(s);
    SortUnnumbered(t);
    SortIsPermutation(AllUnnumbered(s), Precedes);
    SortIsPermutation(AllUnnumbered(t), Precedes);
    assert Tied(a, b, Precedes) by {
      PrecedesIsKeyOrder();
      SortSorts(AllUnnumbered(s), Precedes);
      SortSorts(AllUnnumbered(t), Precedes);
      SortedPermutationsTie(a, b, Precedes);
    }
    forall i | 0 <= i < |a| ensures a[i] == b[i] {
      assert !Precedes(a[i], b[i]) && !Precedes(b[i], a[i]);
      UnnumberedCharge(s, a, i, feeBps);
      UnnumberedCharge(s, b, i, feeBps);
    }
  }

  lemma UnnumberedCharge(s: seq<FillRecord>, a: seq<FillRecord>, i: nat, feeBps: int)
    requires multiset(a) == multiset(AllUnnumbered(s)) && AllCharged(s, feeBps) && i < |a|
    ensures ChargedBps(a[i], feeBps) && a[i].id == 0
  {
    assert a[i] in multiset(a);
    assert a[i] in AllUnnumbered(s);
    var k :| 0 <= k < |s| && AllUnnumbered(s)[k] == a[i];
    assert s[k] in s && a[i] == Unnumbered(s[k]);
  }

  lemma {:induction false} NoFillIssues(saved: seq<FillRecord>, replayed: seq<FillRecord>)
    requires |saved| == |replayed| && AllUnnumbered(saved) == AllUnnumbered(replayed)
    ensures FillIssues(saved, replayed) == []
  {
    if saved != [] {
      var i := |saved| - 1;
      assert AllUnnumbered(saved)[i] == AllUnnumbered(replayed)[i];
      assert AllUnnumbered(saved[..i]) == AllUnnumbered(saved)[..i] == AllUnnumbered(replayed)[..i] == AllUnnumbered(replayed[..i]);
      NoFillIssues(saved[..i], replayed[..i]);
    }
  }

  // ---------------------------------------------------------------- every difference is reported

  /** The two runs differ in this: a trade in its canonical place, the number of trades, the fees, or the profit if it is compared. */
  predicate IsDifference(original: Account, replay: Account, x: Issue) {
    var saved, replayed := StableSort(original.fills, Precedes), StableSort(replay.fills, Precedes);
    match x
    case FillDiffers(i, f, g) =>
      i < |saved| == |replayed| && f == saved[i] && g == replayed[i] && Unnumbered(f) != Unnumbered(g)
    case FillCount(m, n) => m == |saved| && n == |replayed| && m != n
    case FillFees(a, b) => a == Tally(original.fills, FeeOf()) && b == replay.tradingFees && a != b
    case RealizedPnl(a, b) => a == original.realized && b == replay.realized && a != b && original.liquidationPnl == 0
  }

  lemma {:induction false} FillIssuesAre(saved: seq<FillRecord>, replayed: seq<FillRecord>, x: Issue)
    requires |saved| == |replayed|
    ensures x in FillIssues(saved, replayed)
            <==> x.FillDiffers? && x.index < |saved| && x.saved == saved[x.index] && x.replayed == replayed[x.index]
                 && Unnumbered(x.saved) != Unnumbered(x.replayed)
  {
    if saved != [] {
      var i := |saved| - 1;
      FillIssuesAre(saved[..i], replayed[..i], x);
      assert SameTrade(saved[i], replayed[i]) && saved[i].fee == replayed[i].fee <==> Unnumbered(saved[i]) == Unnumbered(replayed[i]);
    }
  }

  /** The comparison reports every difference, and nothing that is none. */
  lemma DifferencesAreReported(original: Account, replay: Account)
    ensures forall x :: x in DiffReports(original, replay) <==> IsDifference(original, replay, x)
  {
    hide StableSort, FillIssues, Unnumbered;
    var saved, replayed := StableSort(original.fills, Precedes), StableSort(replay.fills, Precedes);
    forall x ensures x in DiffReports(original, replay) <==> IsDifference(original, replay, x) {
      if |saved| == |replayed| { FillIssuesAre(saved, replayed, x); }
    }
  }

  lemma UnnumberedAround(s: seq<FillRecord>, x: FillRecord, t: seq<FillRecord>)
    ensures AllUnnumbered(s + [x] + t) == AllUnnumbered(s) + [Unnumbered(x)] + AllUnnumbered(t)
    ensures AllUnnumbered(s + t) == AllUnnumbered(s) + AllUnnumbered(t)
  {
  }

  lemma SameRest(a: multiset<FillRecord>, b: multiset<FillRecord>, x: FillRecord)
    requires a + multiset{x} == b + multiset{x}
    ensures a == b
  {
    assert a == (a + multiset{x}) - multiset{x};
    assert b == (b + multiset{x}) - multiset{x};
  }

  lemma RemoveOne(x: FillRecord, t: seq<FillRecord>, rest: multiset<FillRecord>) returns (before: seq<FillRecord>, after: seq<FillRecord>)
    requires multiset(t) == rest + multiset{x}
    ensures t == before + [x] + after && multiset(before + after) == rest
  {
    assert x in multiset(t);
    var k :| 0 <= k < |t| && t[k] == x;
    before, after := t[..k], t[k + 1..];
    assert t == before + [x] + after;
    assert multiset(t) == multiset(before + after) + multiset{x};
    SameRest(multiset(before + after), rest, x);
  }

  lemma {:induction false} UnnumberedPermutation(s: seq<FillRecord>, t: seq<FillRecord>)
    requires multiset(s) == multiset(t)
    ensures multiset(AllUnnumbered(s)) == multiset(AllUnnumbered(t))
    decreases |s|
  {
    assert |s| == |multiset(s)| == |multiset(t)| == |t|;
    if s != [] {
      var x, init := s[|s| - 1], s[..|s| - 1];
      assert s == init + [x];
      var before, after := RemoveOne(x, t, multiset(init));
      UnnumberedPermutation(init, before + after);
      assert init + [x] + [] == s;
      UnnumberedAround(init, x, []);
      UnnumberedAround(before, x, after);
    }
  }

  // ---------------------------------------------------------------- the totals agree

  lemma {:induction false} TallyInsert(x: FillRecord, s: seq<FillRecord>, less: (FillRecord, FillRecord) -> bool, w: FillRecord -> int)
    ensures Tally(Insert(x, s, less), w) == Tally(s, w) + w(x)
  {
    if s == [] || !less(s[0], x) {
      TallyFront(x, s, w);
    } else {
      TallyInsert(x, s[1..], less, w);
      TallyFront(s[0], Insert(x, s[1..], less), w);
      TallyFront(s[0], s[1..], w);
      assert s == [s[0]] + s[1..];
    }
  }

  lemma TallyFront(x: FillRecord, s: seq<FillRecord>, w: FillRecord -> int)
    ensures Tally([x] + s, w) == w(x) + Tally(s, w)
  {
    TallyConcat([x], s, w);
    assert [x][..0] == [];
    assert Tally([x][..0], w) == 0;
  }

  lemma {:induction false} TallySorted(s: seq<FillRecord>, less: (FillRecord, FillRecord) -> bool, w: FillRecord -> int)
    ensures Tally(StableSort(s, less), w) == Tally(s, w)
  {
    if s != [] {
      TallySorted(s[1..], less, w);
      TallyInsert(s[0], StableSort(s[1..], less), less, w);
      TallyFront(s[0], s[1..], w);
      assert s == [s[0]] + s[1..];
    }
  }

  ghost predicate InTimeOrder(fills: seq<FillRecord>) {
    forall i, j :: 0 <= i < j < |fills| ==> fills[i].ts <= fills[j].ts
  }

  lemma {:induction false} TradedFront(l: Ledger, f: FillRecord, s: seq<FillRecord>)
    ensures TradedAll(l, [f] + s) == TradedAll(Traded(l, f), s)
  {
    hide Traded;
    if s == [] {
      assert [f] + s == [f] && [f][..0] == [];
      assert TradedAll(l, [f][..0]) == l;
    } else {
      TradedFront(l, f, s[..|s| - 1]);
      assert ([f] + s)[..|s|] == [f] + s[..|s| - 1];
    }
  }

  /** Trades on different instruments commute. */
  lemma TradesCommute(l: Ledger, f: FillRecord, g: FillRecord)
    requires f.instrument != g.instrument
    ensures Traded(Traded(l, f), g) == Traded(Traded(l, g), f)
  {
    hide NextPosition, RealizedBy;
    assert Traded(Traded(l, f), g).positions == Traded(Traded(l, g), f).positions;
  }

  lemma {:induction false} TradedInsert(l: Ledger, x: FillRecord, s: seq<FillRecord>)
    requires forall f :: f in s ==> x.ts <= f.ts
    ensures TradedAll(l, Insert(x, s, Earlier)) == TradedAll(l, [x] + s)
    decreases |s|
  {
    hide Traded, TradedAll;
    if s != [] && Earlier(s[0], x) {
      assert s == [s[0]] + s[1..];
      var rest := Insert(x, s[1..], Earlier);
      TradedFront(l, s[0], rest);
      TradedInsert(Traded(l, s[0]), x, s[1..]);
      TradedFront(Traded(l, s[0]), x, s[1..]);
      TradesCommute(l, s[0], x);
      TradedFront(l, x, s);
      TradedFront(Traded(l, x), s[0], s[1..]);
    }
  }

  /** Sorting fills that are already in time order moves trades past other instruments only. */
  lemma {:induction false} TradedSorted(l: Ledger, s: seq<FillRecord>)
    requires InTimeOrder(s)
    ensures TradedAll(l, SortedTrades(s)) == TradedAll(l, s)
    decreases |s|
  {
    hide Traded, TradedAll;
    if s != [] {
      assert s == [s[0]] + s[1..];
      TradedSorted(Traded(l, s[0]), s[1..]);
      SortedTradesKeep(s[1..]);
      TradedInsert(l, s[0], SortedTrades(s[1..]));
      TradedFront(l, s[0], SortedTrades(s[1..]));
      TradedFront(l, s[0], s[1..]);
    }
  }

  lemma {:induction false} SameTradesTradeAlike(l: Ledger, s: seq<FillRecord>, t: seq<FillRecord>)
    requires AllUnnumbered(s) == AllUnnumbered(t)
    ensures TradedAll(l, s) == TradedAll(l, t)
    decreases |s|
  {
    assert |s| == |AllUnnumbered(s)| == |t|;
    if s != [] {
      var i := |s| - 1;
      assert AllUnnumbered(s)[i] == AllUnnumbered(t)[i];
      assert AllUnnumbered(s[..i]) == AllUnnumbered(s)[..i] == AllUnnumbered(t)[..i] == AllUnnumbered(t[..i]);
      SameTradesTradeAlike(l, s[..i], t[..i]);
    }
  }

  lemma {:induction false} SameTradesTallyAlike(s: seq<FillRecord>, t: seq<FillRecord>)
    requires AllUnnumbered(s) == AllUnnumbered(t)
    ensures Tally(s, FeeOf()) == Tally(t, FeeOf())
    decreases |s|
  {
    assert |s| == |AllUnnumbered(s)| == |t|;
    if s != [] {
      var i := |s| - 1;
      assert AllUnnumbered(s)[i] == AllUnnumbered(t)[i];
      assert AllUnnumbered(s[..i]) == AllUnnumbered(s)[..i] == AllUnnumbered(t)[..i] == AllUnnumbered(t[..i]);
      SameTradesTallyAlike(s[..i], t[..i]);
    }
  }

  // ---------------------------------------------------------------- the verdict

  /** What a saved run's fill log looks like when the venue wrote it. */
  ghost predicate WellFormed(fills: seq<FillRecord>, feeBps: int) {
    InTimeOrder(fills) && AllCharged(fills, feeBps) && forall f :: f in fills ==> f.qty > 0
  }

  /** The replayed fills are the saved ones, renumbered and sorted. */
  lemma ReplayedIsSorted(fills: seq<FillRecord>, feeBps: int)
    requires AllCharged(fills, feeBps)
    ensures AllUnnumbered(Replayed(SortedTrades(fills), feeBps)) == AllUnnumbered(SortedTrades(fills))
    ensures multiset(AllUnnumbered(SortedTrades(fills))) == multiset(AllUnnumbered(fills))
  {
    SortedTradesKeep(fills);
    SortIsPermutation(fills, Earlier);
    UnnumberedPermutation(SortedTrades(fills), fills);
    hide StableSort, MulBps;
    var trades := SortedTrades(fills);
    forall i | 0 <= i < |trades| ensures Unnumbered(Replayed(trades, feeBps)[i]) == Unnumbered(trades[i]) {
      assert trades[i] in trades;
      assert ChargedBps(trades[i], feeBps);
    }
  }

  /**
   * Of a well-formed saved run and its replay the comparison can report one thing only: with no
   * liquidation profit booked, a realized profit that is not the one the fills themselves realize.
   */
  lemma ReplayVerdict(saved: Account, feeBps: int)
    requires WellFormed(saved.fills, feeBps)
    ensures var replay := ReplayTrades(saved.fills, feeBps);
            var own := TradedAll(EMPTY, saved.fills).realized;
            && replay.Some?
            && DiffReports(saved, replay.value.account)
               == if saved.liquidationPnl == 0 && saved.realized != own then [RealizedPnl(saved.realized, own)] else []
  {
    ReplayReproduces(saved.fills, feeBps);
    ReplayedIsSorted(saved.fills, feeBps);
    var trades := SortedTrades(saved.fills);
    var replayed := Replayed(trades, feeBps);
    SameSortedFills(saved.fills, replayed, feeBps);
    NoFillIssues(StableSort(saved.fills, Precedes), StableSort(replayed, Precedes));
    SameTradesTallyAlike(replayed, trades);
    TallySorted(saved.fills, Earlier, FeeOf());
    SameTradesTradeAlike(EMPTY, replayed, trades);
    TradedSorted(EMPTY, saved.fills);
    hide ReplayTrades, Replayed, StableSort, TradedAll, FillIssues;
  }
}
