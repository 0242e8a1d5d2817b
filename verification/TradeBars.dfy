/**
 * Bars from trade prints. Aggregating the fine bars of time-ordered prints gives the coarse bars of
 * the same prints, for exactly the buckets in which every fine sub-bucket has a print.
 */
module TradeBars {
  import opened Prelude
  import opened Trading
  import opened Runs
  import opened Aggregation
  import opened AggregationLaws

  datatype Print = Print(ts: int, price: int, qty: int)

  /** A print as a bar without width. */
  function Point(instrument: nat, p: Print): Bar {
    Bar(instrument, p.ts, p.price, p.price, p.price, p.price, p.qty)
  }

  function Points(instrument: nat, prints: seq<Print>): seq<Bar> {
    seq(|prints|, i requires 0 <= i < |prints| => Point(instrument, prints[i]))
  }

  /** Every bucket with a print is a bar. */
  function EmitBucket(instrument: nat, width: int): seq<Bar> -> seq<Bar> {
    (s: seq<Bar>) =>
      if s != [] && width > 0 then [AsBar(instrument, BucketOf(0, width)(s[0]) + width, SummaryOf(s))] else []
  }

  function BarsOf(instrument: nat, width: int, points: seq<Bar>): seq<Bar>
    requires 0 < width
  {
    ByRuns(points, BucketOf(0, width), EmitBucket(instrument, width))
  }

  function BarsFrom(instrument: nat, width: int, prints: seq<Print>): seq<Bar> {
    if width <= 0 || prints == [] then [] else BarsOf(instrument, width, Points(instrument, prints))
  }

  // ---------------------------------------------------------------- in place

  lemma BucketCloses(points: seq<Bar>, start: nat, i: nat, run: Running, instrument: nat, width: int, bars: seq<Bar>)
    requires width > 0 && i <= |points| && run.bucket.Some? && Describes(run, points, start, i, BucketOf(0, width))
    requires i < |points| ==> BucketOf(0, width)(points[i]) != run.bucket.value
    ensures bars + BarsOf(instrument, width, points[start..])
            == bars + [AsBar(instrument, run.bucket.value + width, run.m)] + BarsOf(instrument, width, points[i..])
  {
    RunCloses(points, start, i, BucketOf(0, width), EmitBucket(instrument, width));
    assert EmitBucket(instrument, width)(points[start..i]) == [AsBar(instrument, run.bucket.value + width, run.m)];
    hide BarsOf;
    Associates(bars, [AsBar(instrument, run.bucket.value + width, run.m)], ByRuns(points[i..], BucketOf(0, width), EmitBucket(instrument, width)));
  }

  function OfPrint(p: Print): Summary {
    Summary(p.price, p.price, p.price, p.price, p.qty)
  }

  ghost predicate PrintLaw(points: seq<Bar>, i: nat, start: nat, run: Running, instrument: nat, width: int, bars: seq<Bar>)
    requires 0 < width
  {
    && start <= i <= |points| && Describes(run, points, start, i, BucketOf(0, width)) && (i > 0 ==> run.bucket.Some?)
    && bars + BarsOf(instrument, width, points[start..]) == BarsOf(instrument, width, points)
  }

  lemma PrintContinues(points: seq<Bar>, i: nat, start: nat, run: Running, instrument: nat, width: int, bars: seq<Bar>, p: Print)
    requires 0 < width && PrintLaw(points, i, start, run, instrument, width, bars) && i < |points| && points[i] == Point(instrument, p)
    requires run.bucket == Some(FloorTo(p.ts, width))
    ensures PrintLaw(points, i + 1, start, Running(run.bucket, Joined(run.m, OfPrint(p)), run.count + 1), instrument, width, bars)
  {
    hide Describes, BarsOf, AsBar, FloorTo, BucketOf;
    BucketOfBar(points[i], 0, width);
    DescribesMore(run, points, start, i, BucketOf(0, width));
  }

  /** What the next bucket's first print finds emitted. */
  function AfterBucket(run: Running, instrument: nat, width: int, bars: seq<Bar>): seq<Bar> {
    if run.bucket.Some? then bars + [AsBar(instrument, run.bucket.value + width, run.m)] else bars
  }

  lemma PrintTurns(points: seq<Bar>, i: nat, start: nat, run: Running, instrument: nat, width: int, bars: seq<Bar>, p: Print)
    requires 0 < width && PrintLaw(points, i, start, run, instrument, width, bars) && i < |points| && points[i] == Point(instrument, p)
    requires run.bucket != Some(FloorTo(p.ts, width))
    ensures PrintLaw(points, i + 1, i, Running(Some(FloorTo(p.ts, width)), OfPrint(p), 1), instrument, width, AfterBucket(run, instrument, width, bars))
  {
    hide Describes, BarsOf, AsBar, FloorTo, BucketOf;
    BucketOfBar(points[i], 0, width);
    DescribesOne(points, i, BucketOf(0, width));
    if run.bucket.Some? {
      BucketCloses(points, start, i, run, instrument, width, bars);
    } else {
      Unbegun(run, points, start, i, width);
    }
  }

  lemma PrintsEnd(points: seq<Bar>, start: nat, run: Running, instrument: nat, width: int, bars: seq<Bar>)
    requires 0 < width && points != [] && PrintLaw(points, |points|, start, run, instrument, width, bars)
    ensures AfterBucket(run, instrument, width, bars) == BarsOf(instrument, width, points)
  {
    hide Describes, BarsOf, AsBar, FloorTo, BucketOf;
    BucketCloses(points, start, |points|, run, instrument, width, bars);
    NoPoints(instrument, width);
    assert points[|points|..] == [];
  }

  /** One pass over the prints in their own order, flushing each bucket when the next one begins. */
  method PrintPass(instrument: nat, width: int, prints: seq<Print>) returns (bars: seq<Bar>)
    requires 0 < width && prints != []
    ensures bars == BarsOf(instrument, width, Points(instrument, prints))
  {
    hide PrintLaw, BarsOf, FloorTo, AsBar, Joined, OfPrint, AfterBucket, Points, Describes, Point;
    ghost var points := Points(instrument, prints);
    bars := [];
    var run := Running(None, NOTHING, 0);
    ghost var start: nat := 0;
    Begins(run, points, instrument, width);
    PointCount(instrument, prints);
    for i := 0 to |prints|
      invariant PrintLaw(points, i, start, run, instrument, width, bars)
    {
      var p := prints[i];
      PointAt(instrument, prints, i);
      var bucket := FloorTo(p.ts, width);
      if run.bucket == Some(bucket) {
        PrintContinues(points, i, start, run, instrument, width, bars, p);
        run := Running(run.bucket, Joined(run.m, OfPrint(p)), run.count + 1);
      } else {
        PrintTurns(points, i, start, run, instrument, width, bars, p);
        bars := AfterBucket(run, instrument, width, bars);
        run, start := Running(Some(bucket), OfPrint(p), 1), i;
      }
    }
    PrintsEnd(points, start, run, instrument, width, bars);
    bars := AfterBucket(run, instrument, width, bars);
  }

  method BarsFromTrades(instrument: nat, width: int, prints: seq<Print>) returns (bars: seq<Bar>)
    ensures bars == BarsFrom(instrument, width, prints)
  {
    if width <= 0 || prints == [] {
      return [];
    }
    bars := PrintPass(instrument, width, prints);
  }

  lemma Begins(run: Running, points: seq<Bar>, instrument: nat, width: int)
    requires run.bucket.None? && width > 0
    ensures PrintLaw(points, 0, 0, run, instrument, width, [])
  {
    assert points[0..] == points;
    hide BarsOf;
  }

  lemma PointCount(instrument: nat, prints: seq<Print>)
    ensures |Points(instrument, prints)| == |prints|
  {
  }

  lemma PointAt(instrument: nat, prints: seq<Print>, i: nat)
    requires i < |prints|
    ensures |Points(instrument, prints)| == |prints| && Points(instrument, prints)[i] == Point(instrument, prints[i])
  {
  }

  lemma Unbegun(run: Running, points: seq<Bar>, start: nat, i: nat, width: int)
    requires run.bucket.None? && width > 0 && Describes(run, points, start, i, BucketOf(0, width))
    ensures start == i == 0
  {
  }

  lemma NoPoints(instrument: nat, width: int)
    requires width > 0
    ensures BarsOf(instrument, width, []) == []
  {
  }

  // ---------------------------------------------------------------- composition

  ghost predicate Ordered(points: seq<Bar>) {
    && (forall i :: 0 <= i < |points| ==> points[i].volume >= 0)
    && (forall i, j :: 0 <= i < j < |points| ==> points[i].ts <= points[j].ts)
  }

  lemma OrderedParts(points: seq<Bar>, n: nat)
    requires Ordered(points) && n <= |points|
    ensures Ordered(points[..n]) && Ordered(points[n..])
  {
  }

  // ---------------------------------------------------------------- sub-buckets with a print

  /** A distance of k grid steps. */
  function Along(k: int, fine: int): int {
    k * fine
  }

  /** Some print falls in the fine sub-bucket that opens at `at`. */
  predicate SlotTraded(s: seq<Bar>, fine: int, at: int)
    requires 0 < fine
  {
    exists p :: p in s && FloorTo(p.ts, fine) == at
  }

  /** Every fine sub-bucket of the coarse bucket that opens at `open` has a print. */
  predicate EverySlotTraded(s: seq<Bar>, fine: int, coarse: int, open: int)
    requires 0 < fine
  {
    forall j :: 0 <= j < Fits(fine, coarse) ==> SlotTraded(s, fine, open + Along(j, fine))
  }

  /** The coarse bar of a bucket in which every fine sub-bucket has a print. */
  function EmitFull(instrument: nat, fine: int, coarse: int): seq<Bar> -> seq<Bar>
    requires 0 < fine && 0 < coarse
  {
    (s: seq<Bar>) =>
      if s != [] && EverySlotTraded(s, fine, coarse, FloorTo(s[0].ts, coarse)) then EmitBucket(instrument, coarse)(s) else []
  }

  /** The fine sub-buckets that hold a print, numbered along the grid. */
  ghost function Slots(s: seq<Bar>, fine: int): set<int>
    requires 0 < fine
  {
    set p | p in s :: p.ts / fine
  }

  lemma SlotBounds(t: int, fine: int)
    requires 0 < fine
    ensures FloorTo(t, fine) == Along(t / fine, fine) && Along(t / fine, fine) <= t < Along(t / fine, fine) + fine
  {
  }

  lemma SlotsApart(i: int, j: int, fine: int)
    requires 0 < fine
    ensures i < j ==> Along(i, fine) + fine <= Along(j, fine)
  {
    if i < j {
      MulMonotone(i + 1, j, fine);
      assert (i + 1) * fine == i * fine + fine;
    }
  }

  lemma SameSlot(t: int, u: int, fine: int)
    requires 0 < fine
    ensures FloorTo(t, fine) == FloorTo(u, fine) <==> t / fine == u / fine
    ensures t <= u ==> t / fine <= u / fine
  {
    hide FloorTo, Along;
    SlotBounds(t, fine);
    SlotBounds(u, fine);
    SlotsApart(t / fine, u / fine, fine);
    SlotsApart(u / fine, t / fine, fine);
  }

  lemma RunHasOneSlot(h: seq<Bar>, fine: int, n: nat, i: nat)
    requires 0 < fine && h != [] && n == RunLength(h, BucketOf(0, fine)) && i < n
    ensures h[i].ts / fine == h[0].ts / fine
  {
    hide FloorTo, RunLength, BucketOf;
    assert BucketOf(0, fine)(h[i]) == BucketOf(0, fine)(h[0]);
    BucketOfBar(h[i], 0, fine);
    BucketOfBar(h[0], 0, fine);
    SameSlot(h[i].ts, h[0].ts, fine);
  }

  lemma RestHasLaterSlots(h: seq<Bar>, fine: int, n: nat, i: nat)
    requires 0 < fine && h != [] && Ordered(h) && n == RunLength(h, BucketOf(0, fine)) && n <= i < |h|
    ensures h[i].ts / fine > h[0].ts / fine
  {
    hide FloorTo, RunLength, BucketOf;
    BucketOfBar(h[n], 0, fine);
    BucketOfBar(h[0], 0, fine);
    SameSlot(h[0].ts, h[n].ts, fine);
    SameSlot(h[n].ts, h[i].ts, fine);
  }

  lemma SlotsJoin(a: seq<Bar>, b: seq<Bar>, fine: int)
    requires 0 < fine
    ensures Slots(a + b, fine) == Slots(a, fine) + Slots(b, fine)
  {
    assert forall p :: p in a + b <==> p in a || p in b;
  }

  /** The first run takes one sub-bucket, and what follows it lies in later ones. */
  lemma FirstSlot(h: seq<Bar>, fine: int, n: nat)
    requires 0 < fine && h != [] && Ordered(h) && n == RunLength(h, BucketOf(0, fine))
    ensures Slots(h, fine) == {h[0].ts / fine} + Slots(h[n..], fine) && h[0].ts / fine !in Slots(h[n..], fine)
  {
    hide RunLength, BucketOf, Ordered;
    var first := h[0].ts / fine;
    forall i | 0 <= i < |h[..n]| ensures h[..n][i].ts / fine == first { RunHasOneSlot(h, fine, n, i); }
    forall i | 0 <= i < |h[n..]| ensures h[n..][i].ts / fine > first { RestHasLaterSlots(h, fine, n, n + i); }
    assert h[..n][0] == h[0];
    assert Slots(h[..n], fine) == {first};
    assert h == h[..n] + h[n..];
    SlotsJoin(h[..n], h[n..], fine);
  }

  /** There is one fine bar per sub-bucket with a print. */
  lemma {:induction false} BarsCountSlots(h: seq<Bar>, instrument: nat, fine: int)
    requires 0 < fine && Ordered(h)
    ensures |BarsOf(instrument, fine, h)| == |Slots(h, fine)|
    decreases |h|
  {
    if h == [] {
      NoPoints(instrument, fine);
    } else {
      hide FloorTo, SummaryOf, Ordered, EmitBucket, RunLength, Slots, MiddleBar;
      var n := RunLength(h, BucketOf(0, fine));
      OrderedParts(h, n);
      FirstSlot(h, fine, n);
      BarsCountSlots(h[n..], instrument, fine);
      ByRunsStep(h, BucketOf(0, fine), EmitBucket(instrument, fine), n);
      assert h[..n] != [];
      BucketEmits(h[..n], instrument, fine);
    }
  }

  /** The sub-buckets of a coarse bucket, numbered along the grid. */
  ghost function Numbers(from: int, n: nat): set<int> {
    if n == 0 then {} else Numbers(from, n - 1) + {from + n - 1}
  }

  lemma {:induction false} NumbersCount(from: int, n: nat)
    ensures |Numbers(from, n)| == n && forall k :: k in Numbers(from, n) <==> from <= k < from + n
  {
    if n > 0 { NumbersCount(from, n - 1); }
  }

  lemma SubsetCount(a: set<int>, b: set<int>)
    requires a <= b
    ensures |a| <= |b| && (|a| == |b| <==> a == b)
  {
    assert b == a + (b - a);
    assert |b - a| == 0 <==> b - a == {};
    assert a == b <==> b - a == {};
  }

  lemma SlotNumber(t: int, fine: int, coarse: int, open: int)
    requires Divides(fine, coarse) && FloorTo(t, coarse) == open
    ensures open == Along(open / fine, fine) && open / fine <= t / fine < open / fine + Fits(fine, coarse)
  {
    FloorNested(t, fine, coarse);
    FloorBounds(t, coarse);
    var k, n := open / fine, coarse / fine;
    assert open == k * fine && coarse == n * fine;
    assert (k + n) * fine == open + coarse;
    SameSlot(open, t, fine);
    if t / fine >= k + n { MulMonotone(k + n, t / fine, fine); }
  }

  lemma SlotAt(s: seq<Bar>, fine: int, k: int, j: int)
    requires 0 < fine
    ensures SlotTraded(s, fine, Along(k, fine) + Along(j, fine)) <==> k + j in Slots(s, fine)
  {
    var at := Along(k + j, fine);
    StepsAdd(k, j, fine);
    FloorOfMultiple(k + j, fine);
    SameNumber(k + j, fine);
    assert FloorTo(at, fine) == at && at / fine == k + j;
    hide FloorTo, Along;
    forall p | p in s ensures FloorTo(p.ts, fine) == at <==> p.ts / fine == k + j {
      SameSlot(p.ts, at, fine);
    }
  }

  lemma StepsAdd(k: int, j: int, fine: int)
    ensures Along(k, fine) + Along(j, fine) == Along(k + j, fine)
  {
  }

  lemma SameNumber(k: int, fine: int)
    requires 0 < fine
    ensures (k * fine) / fine == k
  {
    FloorOfMultiple(k, fine);
    var q := (k * fine) / fine;
    assert q * fine == k * fine;
    if q < k { MulMonotone(q + 1, k, fine); }
    if k < q { MulMonotone(k + 1, q, fine); }
  }

  lemma SlotsWithin(s: seq<Bar>, fine: int, coarse: int, open: int)
    requires Divides(fine, coarse) && s != [] && InBucket(s, 0, coarse, open)
    ensures open == Along(open / fine, fine)
    ensures forall k :: k in Slots(s, fine) ==> open / fine <= k < open / fine + Fits(fine, coarse)
  {
    hide FloorTo, Along, Fits;
    assert s[0] in s;
    forall p | p in s ensures open == Along(open / fine, fine) && open / fine <= p.ts / fine < open / fine + Fits(fine, coarse) {
      BucketMember(s, coarse, open, p);
      SlotNumber(p.ts, fine, coarse, open);
    }
  }

  lemma BucketMember(s: seq<Bar>, coarse: int, open: int, p: Bar)
    requires 0 < coarse && p in s && InBucket(s, 0, coarse, open)
    ensures FloorTo(p.ts, coarse) == open
  {
    hide FloorTo;
    var i :| 0 <= i < |s| && s[i] == p;
    assert FloorTo(s[i].ts - 0, coarse) == open;
  }

  lemma OutsideMember(s: seq<Bar>, coarse: int, open: int, p: Bar)
    requires 0 < coarse && p in s && Outside(s, 0, coarse, open)
    ensures FloorTo(p.ts, coarse) != open
  {
    hide FloorTo;
    var i :| 0 <= i < |s| && s[i] == p;
    assert FloorTo(s[i].ts - 0, coarse) != open;
  }

  /** All numbered sub-buckets have a print exactly when the numbers are all there. */
  lemma EveryNumber(s: seq<Bar>, fine: int, coarse: int, open: int, k: int, n: nat)
    requires 0 < fine && n == Fits(fine, coarse) && open == Along(k, fine)
    ensures EverySlotTraded(s, fine, coarse, open) <==> Numbers(k, n) <= Slots(s, fine)
  {
    NumbersCount(k, n);
    hide FloorTo, Fits, Along, Slots, SlotTraded, Numbers;
    forall j | 0 <= j < n ensures SlotTraded(s, fine, open + Along(j, fine)) <==> k + j in Slots(s, fine) {
      SlotAt(s, fine, k, j);
    }
    if EverySlotTraded(s, fine, coarse, open) {
      forall m | m in Numbers(k, n) ensures m in Slots(s, fine) {
        assert SlotTraded(s, fine, open + Along(m - k, fine)) <==> k + (m - k) in Slots(s, fine);
      }
    }
  }

  /** A bucket of prints has as many fine bars as fit exactly when each of its sub-buckets has a print. */
  lemma FullByCount(s: seq<Bar>, instrument: nat, fine: int, coarse: int, open: int)
    requires Divides(fine, coarse) && s != [] && Ordered(s) && InBucket(s, 0, coarse, open)
    ensures |BarsOf(instrument, fine, s)| <= Fits(fine, coarse)
    ensures |BarsOf(instrument, fine, s)| == Fits(fine, coarse) <==> EverySlotTraded(s, fine, coarse, open)
  {
    hide BarsOf, FloorTo, Fits, InBucket, Ordered, Along, Slots, SlotTraded, Numbers, EverySlotTraded, Divides, RunLength;
    SomeFit(fine, coarse);
    BarsCountSlots(s, instrument, fine);
    SlotsWithin(s, fine, coarse, open);
    var k, n := open / fine, Fits(fine, coarse);
    EveryNumber(s, fine, coarse, open, k, n);
    NumbersCount(k, n);
    forall m | m in Slots(s, fine) ensures m in Numbers(k, n) {}
    SubsetCount(Slots(s, fine), Numbers(k, n));
  }

  lemma SomeFit(fine: int, coarse: int)
    requires Divides(fine, coarse)
    ensures 0 < fine && 0 < coarse && Fits(fine, coarse) >= 0
  {
    DivMonotone(fine, coarse, fine);
  }

  lemma BucketEmits(r: seq<Bar>, instrument: nat, width: int)
    requires r != [] && 0 < width
    ensures EmitBucket(instrument, width)(r) == [MiddleBar(r, instrument, 0, width)]
  {
    hide FloorTo, SummaryOf, AsBar;
    assert BucketOf(0, width)(r[0]) == FloorTo(r[0].ts - 0, width);
  }

  lemma OrderedVolume(r: seq<Bar>)
    requires r != [] && Ordered(r)
    ensures SummaryOf(r).volume >= 0
  {
    VolumeNonNegative(r);
  }

  lemma SubBarIsLawful(r: seq<Bar>, instrument: nat, fine: int, coarse: int, open: int)
    requires Divides(fine, coarse) && r != [] && Ordered(r) && FloorTo(r[0].ts, coarse) == open
    ensures MiddleLaw([MiddleBar(r, instrument, 0, fine)], instrument, fine, coarse, open)
  {
    OrderedVolume(r);
    FloorOfFloor(r[0].ts, fine, coarse);
    hide FloorTo, SummaryOf, Ordered, InBucket;
    var b := MiddleBar(r, instrument, 0, fine);
    assert b.ts - fine == FloorTo(r[0].ts, fine);
    OneInBucket(b, fine, coarse, open);
  }

  lemma BarsStep(h: seq<Bar>, instrument: nat, width: int) returns (r: seq<Bar>, rest: seq<Bar>)
    requires 0 < width && h != []
    ensures h == r + rest && r != [] && r[0] == h[0]
    ensures BarsOf(instrument, width, h) == [MiddleBar(r, instrument, 0, width)] + BarsOf(instrument, width, rest)
  {
    hide RunLength, EmitBucket, BucketOf, MiddleBar;
    var n := RunLength(h, BucketOf(0, width));
    r, rest := h[..n], h[n..];
    ByRunsStep(h, BucketOf(0, width), EmitBucket(instrument, width), n);
    BucketEmits(r, instrument, width);
  }

  /** The fine bars of one coarse bucket fall in it, and summarize alike. */
  lemma {:induction false} SubBarsSummarize(h: seq<Bar>, instrument: nat, fine: int, coarse: int, open: int)
    requires Divides(fine, coarse) && Ordered(h) && InBucket(h, 0, coarse, open)
    ensures var x := BarsOf(instrument, fine, h);
            && MiddleLaw(x, instrument, fine, coarse, open)
            && (h != [] ==> x != [] && Alike(SummaryOf(x), SummaryOf(h)))
    decreases |h|
  {
    if h != [] {
      hide FloorTo, SummaryOf, MiddleLaw, BarsOf, Alike, MiddleBar, Ordered, InBucket;
      var r, rest := BarsStep(h, instrument, fine);
      SplitBucket(h, r, rest, coarse, open);
      SubBarsSummarize(rest, instrument, fine, coarse, open);
      SubBarIsLawful(r, instrument, fine, coarse, open);
      MiddleBarSummary(r, instrument, 0, fine);
      OrderedVolume(r);
      var x, y := [MiddleBar(r, instrument, 0, fine)], BarsOf(instrument, fine, rest);
      LawsJoin(x, y, instrument, fine, coarse, open);
      if rest == [] { NoPoints(instrument, fine); }
      SummariesJoin(x, y, r, rest);
    } else {
      NoPoints(instrument, fine);
    }
  }

  lemma SplitBucket(h: seq<Bar>, r: seq<Bar>, rest: seq<Bar>, coarse: int, open: int)
    requires 0 < coarse && h == r + rest && r != [] && Ordered(h) && InBucket(h, 0, coarse, open)
    ensures Ordered(r) && Ordered(rest) && InBucket(rest, 0, coarse, open) && FloorTo(r[0].ts, coarse) == open
  {
    hide FloorTo;
    OrderedParts(h, |r|);
    assert h[..|r|] == r && h[|r|..] == rest && r[0] == h[0];
    BucketPart(h, 0, coarse, open, |r|);
    hide Ordered, InBucket;
  }

  lemma SubBarsSplit(s: seq<Bar>, instrument: nat, fine: int, coarse: int, n: nat)
    requires Divides(fine, coarse) && s != [] && n == RunLength(s, BucketOf(0, coarse))
    ensures BarsOf(instrument, fine, s) == BarsOf(instrument, fine, s[..n]) + BarsOf(instrument, fine, s[n..])
  {
    assert s == s[..n] + s[n..];
    if n < |s| {
      FloorOfFloor(s[n - 1].ts, fine, coarse);
      FloorOfFloor(s[n].ts, fine, coarse);
      assert BucketOf(0, coarse)(s[n - 1]) != BucketOf(0, coarse)(s[n]);
      hide FloorTo;
      assert BucketOf(0, fine)(s[n - 1]) != BucketOf(0, fine)(s[n]);
    }
    ByRunsSplit(s[..n], s[n..], BucketOf(0, fine), EmitBucket(instrument, fine));
  }

  lemma LaterPrints(s: seq<Bar>, coarse: int, n: nat)
    requires 0 < coarse && s != [] && Ordered(s) && n == RunLength(s, BucketOf(0, coarse))
    ensures Outside(s[n..], 0, coarse, FloorTo(s[0].ts, coarse))
  {
    hide FloorTo, RunLength, BucketOf;
    if n < |s| {
      BucketOfBar(s[0], 0, coarse);
      BucketOfBar(s[n], 0, coarse);
      FloorMonotone(s[0].ts, s[n].ts, coarse);
      forall i | 0 <= i < |s[n..]| ensures FloorTo(s[n..][i].ts - 0, coarse) != FloorTo(s[0].ts, coarse) {
        FloorMonotone(s[n].ts, s[n + i].ts, coarse);
      }
    }
  }

  lemma SubBarOutside(r: seq<Bar>, instrument: nat, fine: int, coarse: int, open: int)
    requires Divides(fine, coarse) && r != [] && FloorTo(r[0].ts - 0, coarse) != open
    ensures Outside([MiddleBar(r, instrument, 0, fine)], fine, coarse, open)
  {
    FloorOfFloor(r[0].ts, fine, coarse);
    hide FloorTo, SummaryOf;
    var b := MiddleBar(r, instrument, 0, fine);
    assert b.ts - fine == FloorTo(r[0].ts, fine);
  }

  lemma {:induction false} SubBarsAvoid(h: seq<Bar>, instrument: nat, fine: int, coarse: int, open: int)
    requires Divides(fine, coarse) && Outside(h, 0, coarse, open)
    ensures Outside(BarsOf(instrument, fine, h), fine, coarse, open)
    decreases |h|
  {
    if h != [] {
      hide FloorTo, BarsOf, Outside, MiddleBar;
      var r, rest := BarsStep(h, instrument, fine);
      OutsideParts(h, 0, coarse, open, |r|);
      assert h[|r|..] == rest;
      SubBarsAvoid(rest, instrument, fine, coarse, open);
      SubBarOutside(r, instrument, fine, coarse, open);
      OutsideJoins([MiddleBar(r, instrument, 0, fine)], BarsOf(instrument, fine, rest), fine, coarse, open);
    } else {
      NoPoints(instrument, fine);
    }
  }

  /** A coarse bucket of prints gives one bar, by way of its fine bars, when none of them is missing. */
  lemma PrintBucketComposes(g: seq<Bar>, instrument: nat, fine: int, coarse: int, open: int)
    requires Divides(fine, coarse) && g != [] && Ordered(g) && InBucket(g, 0, coarse, open) && FloorTo(g[0].ts, coarse) == open
    ensures MiddleLaw(BarsOf(instrument, fine, g), instrument, fine, coarse, open)
    ensures EmitBar(instrument, fine, coarse)(BarsOf(instrument, fine, g)) == EmitFull(instrument, fine, coarse)(g)
  {
    hide BarsOf, FloorTo, SummaryOf, Narrowed, EmitBucket, Ordered, EmitBar, EmitFull, Fits, MiddleBar, InBucket;
    SubBarsSummarize(g, instrument, fine, coarse, open);
    var x := BarsOf(instrument, fine, g);
    FullRunEmits(x, instrument, fine, coarse);
    BucketEmits(g, instrument, coarse);
    FullEmits(g, instrument, fine, coarse, open);
    BucketPart(x, fine, coarse, open, 0);
    SameBar(x, g, instrument, fine, coarse);
  }

  lemma FullEmits(g: seq<Bar>, instrument: nat, fine: int, coarse: int, open: int)
    requires Divides(fine, coarse) && g != [] && Ordered(g) && InBucket(g, 0, coarse, open) && FloorTo(g[0].ts, coarse) == open
    ensures EmitFull(instrument, fine, coarse)(g)
            == if |BarsOf(instrument, fine, g)| == Fits(fine, coarse) then EmitBucket(instrument, coarse)(g) else []
  {
    hide BarsOf, EmitBucket, FloorTo, Fits, InBucket, Ordered;
    FullByCount(g, instrument, fine, coarse, open);
  }

  lemma SameBar(x: seq<Bar>, g: seq<Bar>, instrument: nat, fine: int, coarse: int)
    requires 0 < coarse && x != [] && g != [] && Alike(SummaryOf(x), SummaryOf(g))
    requires FloorTo(x[0].ts - fine, coarse) == FloorTo(g[0].ts, coarse)
    ensures MiddleBar(x, instrument, fine, coarse) == MiddleBar(g, instrument, 0, coarse)
  {
    hide FloorTo, SummaryOf, Narrowed;
  }

  lemma FirstPrintBucket(s: seq<Bar>, coarse: int, n: nat)
    requires 0 < coarse && s != [] && Ordered(s) && n == RunLength(s, BucketOf(0, coarse))
    ensures s[..n] != [] && s[..n][0] == s[0] && Ordered(s[..n]) && Ordered(s[n..])
    ensures InBucket(s[..n], 0, coarse, FloorTo(s[0].ts, coarse))
  {
    hide FloorTo, Ordered, InBucket, BucketOf;
    OrderedParts(s, n);
    RunInBucket(s, 0, coarse, n);
  }

  lemma {:induction false} PrintsCompose(s: seq<Bar>, instrument: nat, fine: int, coarse: int)
    requires Divides(fine, coarse) && Ordered(s)
    ensures ByRuns(BarsOf(instrument, fine, s), BucketOf(fine, coarse), EmitBar(instrument, fine, coarse))
            == ByRuns(s, BucketOf(0, coarse), EmitFull(instrument, fine, coarse))
    decreases |s|
  {
    assert 0 < fine && 0 < coarse;
    hide RunLength, FloorTo, EmitBar, EmitFull, Ordered, InBucket, MiddleLaw, Outside, BucketOf, Divides, Remainder, ByRuns, BarsOf;
    if s == [] {
      NoPoints(instrument, fine);
      NoRuns(BucketOf(fine, coarse), EmitBar(instrument, fine, coarse));
      NoRuns(BucketOf(0, coarse), EmitFull(instrument, fine, coarse));
    } else {
      var n := RunLength(s, BucketOf(0, coarse));
      var open := FloorTo(s[0].ts, coarse);
      FirstPrintBucket(s, coarse, n);
      SubBarsSplit(s, instrument, fine, coarse, n);
      PrintBucketComposes(s[..n], instrument, fine, coarse, open);
      LaterPrints(s, coarse, n);
      SubBarsAvoid(s[n..], instrument, fine, coarse, open);
      PrintsCompose(s[n..], instrument, fine, coarse);
      BucketsJoin(BarsOf(instrument, fine, s[..n]), BarsOf(instrument, fine, s[n..]), instrument, fine, coarse, open);
      ByRunsStep(s, BucketOf(0, coarse), EmitFull(instrument, fine, coarse), n);
    }
  }

  ghost predicate TimeOrdered(prints: seq<Print>) {
    && (forall i :: 0 <= i < |prints| ==> prints[i].qty >= 0)
    && (forall i, j :: 0 <= i < j < |prints| ==> prints[i].ts <= prints[j].ts)
  }

  /**
   * Aggregating the fine bars of time-ordered prints gives the coarse bars of the prints, in exactly
   * the buckets in which every fine sub-bucket has a print.
   */
  lemma TradeBarsCompose(instrument: nat, fine: int, coarse: int, prints: seq<Print>)
    requires Divides(fine, coarse) && TimeOrdered(prints)
    ensures Aggregated(BarsFrom(instrument, fine, prints), fine, coarse)
            == ByRuns(Points(instrument, prints), BucketOf(0, coarse), EmitFull(instrument, fine, coarse))
  {
    var points := Points(instrument, prints);
    assert Ordered(points);
    PrintsCompose(points, instrument, fine, coarse);
    if prints != [] {
      BarsHaveInstrument(points, instrument, fine);
      NoRuns(BucketOf(fine, coarse), EmitBar(instrument, fine, coarse));
    }
  }

  lemma {:induction false} BarsHaveInstrument(h: seq<Bar>, instrument: nat, width: int)
    requires 0 < width
    ensures AllOf(BarsOf(instrument, width, h), instrument)
    decreases |h|
  {
    if h != [] {
      hide BarsOf, FloorTo, SummaryOf;
      var r, rest := BarsStep(h, instrument, width);
      BarsHaveInstrument(rest, instrument, width);
      AllOfJoin([MiddleBar(r, instrument, 0, width)], BarsOf(instrument, width, rest), instrument);
    }
  }

  // ---------------------------------------------------------------- when no coarse bar is missing

  /** Every fine sub-bucket of every coarse bucket that has a print has one. */
  ghost predicate NoneEmpty(s: seq<Bar>, fine: int, coarse: int)
    requires 0 < fine && 0 < coarse
  {
    forall p :: p in s ==> EverySlotTraded(s, fine, coarse, FloorTo(p.ts, coarse))
  }

  lemma SlotsOfBucket(s: seq<Bar>, fine: int, coarse: int, n: nat, j: int)
    requires Divides(fine, coarse) && s != [] && Ordered(s) && n == RunLength(s, BucketOf(0, coarse)) && 0 <= j < Fits(fine, coarse)
    ensures var open := FloorTo(s[0].ts, coarse);
            SlotTraded(s, fine, open + Along(j, fine)) <==> SlotTraded(s[..n], fine, open + Along(j, fine))
  {
    hide FloorTo, RunLength, BucketOf, Ordered, Along;
    var open := FloorTo(s[0].ts, coarse);
    var at := open + Along(j, fine);
    LaterPrints(s, coarse, n);
    SlotInBucket(s[0].ts, fine, coarse, j);
    forall p | p in s && FloorTo(p.ts, fine) == at ensures p in s[..n] {
      FloorOfFloor(p.ts, fine, coarse);
      assert s == s[..n] + s[n..];
      if p in s[n..] { OutsideMember(s[n..], coarse, open, p); }
    }
  }

  lemma SlotInBucket(t: int, fine: int, coarse: int, j: int)
    requires Divides(fine, coarse) && 0 <= j < Fits(fine, coarse)
    ensures var open := FloorTo(t, coarse); FloorTo(open + Along(j, fine), coarse) == open
  {
    StepFits(fine, coarse, j);
    FloorIs(FloorTo(t, coarse) + Along(j, fine), t / coarse, coarse);
  }

  lemma StepFits(fine: int, coarse: int, j: int)
    requires Divides(fine, coarse) && 0 <= j < Fits(fine, coarse)
    ensures 0 <= Along(j, fine) < coarse
  {
    var n := coarse / fine;
    assert coarse == n * fine;
    MulMonotone(0, j, fine);
    MulMonotone(j + 1, n, fine);
    assert (j + 1) * fine == j * fine + fine;
  }

  lemma FloorIs(u: int, q: int, w: int)
    requires w > 0 && q * w <= u < q * w + w
    ensures FloorTo(u, w) == q * w
  {
    FloorOfMultiple(q, w);
    FloorMonotone(q * w, u, w);
    FloorBounds(u, w);
    if FloorTo(q * w, w) < FloorTo(u, w) { FloorApart(q * w, u, w); }
  }

  lemma LaterSlots(s: seq<Bar>, fine: int, coarse: int, n: nat, i: nat, j: int)
    requires Divides(fine, coarse) && s != [] && Ordered(s) && n == RunLength(s, BucketOf(0, coarse)) && n <= i < |s|
    requires 0 <= j < Fits(fine, coarse)
    ensures var open := FloorTo(s[i].ts, coarse);
            SlotTraded(s, fine, open + Along(j, fine)) <==> SlotTraded(s[n..], fine, open + Along(j, fine))
  {
    hide FloorTo, RunLength, BucketOf, Ordered, Along;
    var open := FloorTo(s[i].ts, coarse);
    var at := open + Along(j, fine);
    RunInBucket(s, 0, coarse, n);
    LaterPrints(s, coarse, n);
    assert s == s[..n] + s[n..] && s[n..][i - n] == s[i] && s[i] in s[n..];
    OutsideMember(s[n..], coarse, FloorTo(s[0].ts, coarse), s[i]);
    SlotInBucket(s[i].ts, fine, coarse, j);
    forall p | p in s && FloorTo(p.ts, fine) == at ensures p in s[n..] {
      FloorOfFloor(p.ts, fine, coarse);
      if p in s[..n] { BucketMember(s[..n], coarse, FloorTo(s[0].ts, coarse), p); }
    }
    forall p | p in s[n..] ensures p in s {}
  }

  /** The first bucket is full and so are the later ones. */
  lemma NoneEmptySplits(s: seq<Bar>, fine: int, coarse: int, n: nat)
    requires Divides(fine, coarse) && s != [] && Ordered(s) && n == RunLength(s, BucketOf(0, coarse))
    ensures NoneEmpty(s, fine, coarse)
            <==> EverySlotTraded(s[..n], fine, coarse, FloorTo(s[0].ts, coarse)) && NoneEmpty(s[n..], fine, coarse)
  {
    hide FloorTo, RunLength, BucketOf, Ordered, SlotTraded, Along, Fits, InBucket;
    var open := FloorTo(s[0].ts, coarse);
    RunInBucket(s, 0, coarse, n);
    FirstIsFull(s, fine, coarse, n);
    forall i | 0 <= i < |s|
      ensures EverySlotTraded(s, fine, coarse, FloorTo(s[i].ts, coarse))
              <==> if i < n then EverySlotTraded(s[..n], fine, coarse, open) else EverySlotTraded(s[n..], fine, coarse, FloorTo(s[i].ts, coarse))
    {
      if i < n {
        BucketAt(s, coarse, n, i, open);
      } else {
        forall j | 0 <= j < Fits(fine, coarse)
          ensures SlotTraded(s, fine, FloorTo(s[i].ts, coarse) + Along(j, fine)) <==> SlotTraded(s[n..], fine, FloorTo(s[i].ts, coarse) + Along(j, fine))
        {
          LaterSlots(s, fine, coarse, n, i, j);
        }
      }
    }
    hide EverySlotTraded;
    if NoneEmpty(s, fine, coarse) {
      assert s[0] in s;
      forall p | p in s[n..] ensures EverySlotTraded(s[n..], fine, coarse, FloorTo(p.ts, coarse)) {
        var k :| 0 <= k < |s[n..]| && s[n..][k] == p;
        assert s[n + k] == p && p in s;
      }
    } else {
      var p :| p in s && !EverySlotTraded(s, fine, coarse, FloorTo(p.ts, coarse));
      var k :| 0 <= k < |s| && s[k] == p;
      if k >= n { assert s[n..][k - n] == p && p in s[n..]; }
    }
  }

  lemma BucketAt(s: seq<Bar>, coarse: int, n: nat, i: nat, open: int)
    requires 0 < coarse && i < n <= |s| && InBucket(s[..n], 0, coarse, open)
    ensures FloorTo(s[i].ts, coarse) == open
  {
    hide FloorTo;
    assert s[..n][i] == s[i] && FloorTo(s[..n][i].ts - 0, coarse) == open;
  }

  lemma FirstIsFull(s: seq<Bar>, fine: int, coarse: int, n: nat)
    requires Divides(fine, coarse) && s != [] && Ordered(s) && n == RunLength(s, BucketOf(0, coarse))
    ensures var open := FloorTo(s[0].ts, coarse);
            EverySlotTraded(s, fine, coarse, open) <==> EverySlotTraded(s[..n], fine, coarse, open)
  {
    hide FloorTo, RunLength, BucketOf, Ordered, SlotTraded, Along, Fits;
    var open := FloorTo(s[0].ts, coarse);
    forall j | 0 <= j < Fits(fine, coarse)
      ensures SlotTraded(s, fine, open + Along(j, fine)) <==> SlotTraded(s[..n], fine, open + Along(j, fine))
    {
      SlotsOfBucket(s, fine, coarse, n, j);
    }
  }

  /** The full buckets are at most all buckets, and all of them exactly when no sub-bucket is empty. */
  lemma {:induction false} FullBucketsCount(s: seq<Bar>, instrument: nat, fine: int, coarse: int)
    requires Divides(fine, coarse) && Ordered(s)
    ensures var full, all := ByRuns(s, BucketOf(0, coarse), EmitFull(instrument, fine, coarse)), BarsOf(instrument, coarse, s);
            && |full| <= |all|
            && if NoneEmpty(s, fine, coarse) then full == all else |full| < |all|
    decreases |s|
  {
    if s != [] {
      hide FloorTo, RunLength, BucketOf, Ordered, SlotTraded, Along, Fits, EmitBucket, NoneEmpty, EverySlotTraded, MiddleBar, ByRuns;
      var n := RunLength(s, BucketOf(0, coarse));
      FirstPrintBucket(s, coarse, n);
      FullBucketsCount(s[n..], instrument, fine, coarse);
      NoneEmptySplits(s, fine, coarse, n);
      ByRunsStep(s, BucketOf(0, coarse), EmitFull(instrument, fine, coarse), n);
      ByRunsStep(s, BucketOf(0, coarse), EmitBucket(instrument, coarse), n);
      BucketEmits(s[..n], instrument, coarse);
    }
  }

  /** So nothing is missing from the aggregated bars exactly when no sub-bucket lacks a print. */
  lemma FullBucketsAreAll(instrument: nat, fine: int, coarse: int, prints: seq<Print>)
    requires Divides(fine, coarse) && TimeOrdered(prints)
    ensures Aggregated(BarsFrom(instrument, fine, prints), fine, coarse) == BarsFrom(instrument, coarse, prints)
            <==> NoneEmpty(Points(instrument, prints), fine, coarse)
  {
    assert Ordered(Points(instrument, prints));
    CoarseBars(instrument, coarse, prints);
    hide EmitFull, NoneEmpty, Ordered, Aggregated, Divides, Points, BarsFrom, BucketOf, BarsOf, ByRuns, TimeOrdered;
    SomeFit(fine, coarse);
    TradeBarsCompose(instrument, fine, coarse, prints);
    FullBucketsCount(Points(instrument, prints), instrument, fine, coarse);
  }

  lemma CoarseBars(instrument: nat, coarse: int, prints: seq<Print>)
    requires 0 < coarse
    ensures BarsFrom(instrument, coarse, prints) == BarsOf(instrument, coarse, Points(instrument, prints))
  {
    NoPoints(instrument, coarse);
    hide BarsOf;
    assert prints == [] ==> Points(instrument, prints) == [];
  }
}
