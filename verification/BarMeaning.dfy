/**
 * What an aggregated bar says of the bars or prints it stands for: the first open, the highest high,
 * the lowest low, the last close and the total volume of one bucket of the grid, stamped with that
 * bucket's end. Every input falls in exactly one bucket, and every bucket is a bar or is reported.
 */
module BarMeaning {
  import opened Prelude
  import opened Trading
  import opened Runs
  import opened Aggregation
  import opened AggregationLaws
  import opened TradeBars

  // ---------------------------------------------------------------- one bucket

  function VolumeOf(): Bar -> int {
    (b: Bar) => b.volume
  }

  function PrintQty(): Print -> int {
    (p: Print) => p.qty
  }

  /** A total as 64 bits hold it: what does not fit is the largest value. */
  predicate IsNarrowed(volume: int, total: int) {
    volume == if I64_MIN <= total <= I64_MAX then total else I64_MAX
  }

  /** The bar's prices are those of the inputs: nothing above its high or below its low, and both were reached. */
  ghost predicate Summarizes(b: Bar, inputs: seq<Bar>) {
    && inputs != []
    && b.open == inputs[0].open && b.close == inputs[|inputs| - 1].close
    && (forall x :: x in inputs ==> b.low <= x.low && x.high <= b.high)
    && (exists x :: x in inputs && x.high == b.high) && (exists x :: x in inputs && x.low == b.low)
    && IsNarrowed(b.volume, Tally(inputs, VolumeOf()))
  }

  ghost predicate SummarizesPrints(b: Bar, inputs: seq<Print>) {
    && inputs != []
    && b.open == inputs[0].price && b.close == inputs[|inputs| - 1].price
    && (forall p :: p in inputs ==> b.low <= p.price <= b.high)
    && (exists p :: p in inputs && p.price == b.high) && (exists p :: p in inputs && p.price == b.low)
    && IsNarrowed(b.volume, Tally(inputs, PrintQty()))
  }

  /** The instants of the grid bucket that ends at `stamp`. */
  ghost predicate InGridBucket(opens: int, width: int, stamp: int) {
    stamp - width <= opens < stamp
  }

  /** `stamp` is a multiple of the width. */
  ghost predicate OnTheGrid(stamp: int, width: int) {
    exists k: int :: stamp == Along(k, width)
  }

  ghost predicate Bucket(inputs: seq<Bar>, fine: int, coarse: int, stamp: int) {
    OnTheGrid(stamp, coarse) && forall x :: x in inputs ==> InGridBucket(x.ts - fine, coarse, stamp)
  }

  /** An instant lies in one bucket of the grid only. */
  lemma OneBucketHolds(t: int, width: int, stamp: int, other: int)
    requires width > 0 && OnTheGrid(stamp, width) && OnTheGrid(other, width)
    requires InGridBucket(t, width, stamp) && InGridBucket(t, width, other)
    ensures stamp == other
  {
    var k: int :| stamp == Along(k, width);
    var j: int :| other == Along(j, width);
    SlotsApart(k, j, width);
    SlotsApart(j, k, width);
    hide Along;
  }

  /** What a summary holds of the bars it was joined from. */
  ghost predicate Holds(m: Summary, inputs: seq<Bar>) {
    && inputs != []
    && m.open == inputs[0].open && m.close == inputs[|inputs| - 1].close
    && (forall x :: x in inputs ==> m.low <= x.low && x.high <= m.high)
    && (exists x :: x in inputs && x.high == m.high) && (exists x :: x in inputs && x.low == m.low)
    && m.volume == Tally(inputs, VolumeOf())
  }

  lemma HoldsMore(m: Summary, init: seq<Bar>, last: Bar)
    requires Holds(m, init)
    ensures Holds(Joined(m, OfBar(last)), init + [last])
  {
    var all := init + [last];
    TallyPush(init, last, VolumeOf());
    var h :| h in init && h.high == m.high;
    var l :| l in init && l.low == m.low;
    assert h in all && l in all && last in all;
  }

  lemma HoldsOne(b: Bar)
    ensures Holds(OfBar(b), [b])
  {
    assert [] + [b] == [b] && b in [b];
    TallyPush([], b, VolumeOf());
  }

  lemma {:induction false} SummaryHolds(inputs: seq<Bar>)
    requires inputs != []
    ensures Holds(SummaryOf(inputs), inputs)
  {
    hide Holds, Joined, OfBar;
    var init, last := inputs[..|inputs| - 1], inputs[|inputs| - 1];
    assert inputs == init + [last];
    if |inputs| == 1 {
      assert inputs == [last];
      HoldsOne(last);
    } else {
      SummaryHolds(init);
      HoldsMore(SummaryOf(init), init, last);
    }
  }

  lemma BarOfSummary(instrument: nat, stamp: int, inputs: seq<Bar>)
    requires inputs != []
    ensures Summarizes(AsBar(instrument, stamp, SummaryOf(inputs)), inputs)
  {
    SummaryHolds(inputs);
    hide SummaryOf;
  }

  /** Bars on one key are in the bucket that starts there. */
  lemma RunIsBucket(inputs: seq<Bar>, fine: int, coarse: int)
    requires inputs != [] && coarse > 0 && forall i :: 0 <= i < |inputs| ==> BucketOf(fine, coarse)(inputs[i]) == BucketOf(fine, coarse)(inputs[0])
    ensures Bucket(inputs, fine, coarse, BucketOf(fine, coarse)(inputs[0]) + coarse)
  {
    var open := BucketOf(fine, coarse)(inputs[0]);
    var k := (inputs[0].ts - fine) / coarse;
    assert open == k * coarse;
    assert Along(k + 1, coarse) == open + coarse;
    forall x | x in inputs ensures InGridBucket(x.ts - fine, coarse, open + coarse) {
      FloorBounds(x.ts - fine, coarse);
    }
  }

  lemma FirstRunIsBucket(bars: seq<Bar>, fine: int, coarse: int, n: nat)
    requires bars != [] && coarse > 0 && n == RunLength(bars, BucketOf(fine, coarse))
    ensures Bucket(bars[..n], fine, coarse, FirstStamp(bars, fine, coarse))
    ensures n < |bars| ==> FirstStamp(bars[n..], fine, coarse) != FirstStamp(bars, fine, coarse)
  {
    hide FloorTo, Bucket, RunLength, BucketOf;
    var key := BucketOf(fine, coarse);
    forall i | 0 <= i < n ensures key(bars[..n][i]) == key(bars[..n][0]) {
      assert bars[..n][i] == bars[i] && key(bars[i]) == key(bars[0]);
    }
    RunIsBucket(bars[..n], fine, coarse);
    assert n < |bars| ==> bars[n..][0] == bars[n];
  }

  /** The stamp of the run that begins a list. */
  function FirstStamp(bars: seq<Bar>, fine: int, coarse: int): int
    requires bars != [] && coarse > 0
  {
    BucketOf(fine, coarse)(bars[0]) + coarse
  }

  lemma SameFirstStamp(bars: seq<Bar>, fine: int, coarse: int, n: nat)
    requires coarse > 0 && 0 < n <= |bars|
    ensures FirstStamp(bars[..n], fine, coarse) == FirstStamp(bars, fine, coarse)
  {
  }

  // ---------------------------------------------------------------- aggregating bars

  function Chained<T>(groups: seq<seq<T>>): seq<T> {
    if groups == [] then [] else groups[0] + Chained(groups[1..])
  }

  /** The bars split in order into buckets, each next to a different one. */
  ghost predicate Split(bars: seq<Bar>, groups: seq<seq<Bar>>, stamps: seq<int>, fine: int, coarse: int) {
    && Chained(groups) == bars && |stamps| == |groups|
    && (forall k :: 0 <= k < |groups| ==> groups[k] != [] && Bucket(groups[k], fine, coarse, stamps[k]))
    && (forall k :: 0 < k < |groups| ==> stamps[k - 1] != stamps[k])
  }

  /** In order, each bucket with all its bars is a bar, and every other one is reported by its stamp. */
  ghost predicate Accounts(out: seq<Bar>, holes: seq<int>, groups: seq<seq<Bar>>, stamps: seq<int>, instrument: nat, full: int)
    requires |stamps| == |groups|
  {
    if groups == [] then
      out == [] && holes == []
    else if |groups[0]| == full then
      && out != [] && out[0].instrument == instrument && out[0].ts == stamps[0] && Summarizes(out[0], groups[0])
      && Accounts(out[1..], holes, groups[1..], stamps[1..], instrument, full)
    else
      holes != [] && holes[0] == stamps[0] && Accounts(out, holes[1..], groups[1..], stamps[1..], instrument, full)
  }

  lemma SplitGrows(first: seq<Bar>, stamp: int, rest: seq<Bar>, groups: seq<seq<Bar>>, stamps: seq<int>, fine: int, coarse: int)
    requires first != [] && Bucket(first, fine, coarse, stamp) && Split(rest, groups, stamps, fine, coarse)
    requires groups != [] ==> stamps[0] != stamp
    ensures Split(first + rest, [first] + groups, [stamp] + stamps, fine, coarse)
  {
    hide Bucket;
    assert ([first] + groups)[1..] == groups;
  }

  lemma AccountsForFull(b: Bar, out: seq<Bar>, holes: seq<int>, first: seq<Bar>, stamp: int, groups: seq<seq<Bar>>, stamps: seq<int>,
                        instrument: nat, full: int)
    requires |stamps| == |groups| && Accounts(out, holes, groups, stamps, instrument, full)
    requires |first| == full && b.instrument == instrument && b.ts == stamp && Summarizes(b, first)
    ensures Accounts([b] + out, holes, [first] + groups, [stamp] + stamps, instrument, full)
  {
    hide Summarizes;
    assert ([b] + out)[1..] == out && ([first] + groups)[1..] == groups && ([stamp] + stamps)[1..] == stamps;
  }

  lemma AccountsForHole(out: seq<Bar>, holes: seq<int>, first: seq<Bar>, stamp: int, groups: seq<seq<Bar>>, stamps: seq<int>,
                        instrument: nat, full: int)
    requires |stamps| == |groups| && Accounts(out, holes, groups, stamps, instrument, full) && |first| != full
    ensures Accounts(out, [stamp] + holes, [first] + groups, [stamp] + stamps, instrument, full)
  {
    hide Summarizes;
    assert ([stamp] + holes)[1..] == holes && ([first] + groups)[1..] == groups && ([stamp] + stamps)[1..] == stamps;
  }

  lemma {:induction false} RunsAccount(bars: seq<Bar>, instrument: nat, fine: int, coarse: int)
    returns (groups: seq<seq<Bar>>, stamps: seq<int>)
    requires 0 < fine && 0 < coarse
    ensures |stamps| == |groups| && Split(bars, groups, stamps, fine, coarse) && (groups == [] <==> bars == [])
    ensures bars != [] ==> stamps[0] == FirstStamp(bars, fine, coarse)
    ensures Accounts(ByRuns(bars, BucketOf(fine, coarse), EmitBar(instrument, fine, coarse)),
                     ByRuns(bars, BucketOf(fine, coarse), EmitHole(fine, coarse)), groups, stamps, instrument, Fits(fine, coarse))
    decreases |bars|
  {
    hide Summarizes, Bucket, Split, Accounts, SummaryOf, FloorTo, AsBar, BucketOf, FirstStamp, ByRuns, EmitBar, EmitHole;
    if bars == [] {
      groups, stamps := [], [];
      NothingAccounts(instrument, fine, coarse);
    } else {
      var key := BucketOf(fine, coarse);
      var n := RunLength(bars, key);
      var first, rest := bars[..n], bars[n..];
      var stamp := FirstStamp(bars, fine, coarse);
      assert first + rest == bars;
      SameFirstStamp(bars, fine, coarse, n);
      groups, stamps := RunsAccount(rest, instrument, fine, coarse);
      FirstRunIsBucket(bars, fine, coarse, n);
      SplitGrows(first, stamp, rest, groups, stamps, fine, coarse);
      ByRunsStep(bars, key, EmitBar(instrument, fine, coarse), n);
      ByRunsStep(bars, key, EmitHole(fine, coarse), n);
      var out, holes := ByRuns(rest, key, EmitBar(instrument, fine, coarse)), ByRuns(rest, key, EmitHole(fine, coarse));
      FirstAccounts(first, instrument, fine, coarse, out, holes, groups, stamps);
      groups, stamps := [first] + groups, [stamp] + stamps;
    }
  }

  lemma NothingAccounts(instrument: nat, fine: int, coarse: int)
    requires 0 < fine && 0 < coarse
    ensures Split([], [], [], fine, coarse)
    ensures Accounts(ByRuns([], BucketOf(fine, coarse), EmitBar(instrument, fine, coarse)),
                     ByRuns([], BucketOf(fine, coarse), EmitHole(fine, coarse)), [], [], instrument, Fits(fine, coarse))
  {
  }

  lemma FirstAccounts(first: seq<Bar>, instrument: nat, fine: int, coarse: int, out: seq<Bar>, holes: seq<int>,
                      groups: seq<seq<Bar>>, stamps: seq<int>)
    requires 0 < fine && 0 < coarse && first != []
    requires |stamps| == |groups| && Accounts(out, holes, groups, stamps, instrument, Fits(fine, coarse))
    ensures Accounts(EmitBar(instrument, fine, coarse)(first) + out, EmitHole(fine, coarse)(first) + holes,
                     [first] + groups, [FirstStamp(first, fine, coarse)] + stamps, instrument, Fits(fine, coarse))
  {
    hide Accounts, SummaryOf, FloorTo;
    var stamp := FirstStamp(first, fine, coarse);
    if |first| == coarse / fine {
      var b := AsBar(instrument, stamp, SummaryOf(first));
      BarOfSummary(instrument, stamp, first);
      AccountsForFull(b, out, holes, first, stamp, groups, stamps, instrument, Fits(fine, coarse));
      assert [] + holes == holes;
    } else {
      AccountsForHole(out, holes, first, stamp, groups, stamps, instrument, Fits(fine, coarse));
      assert [] + out == out;
    }
  }

  /**
   * Aggregating splits the bars into buckets of the grid, and accounts for each of them in order: a
   * bucket that holds as many bars as fit it becomes the bar that summarizes them, stamped with its
   * end, and the end of any other is reported. A width that is no multiple of the bars' gives nothing.
   */
  lemma AggregatedSummarizes(bars: seq<Bar>, fine: int, coarse: int) returns (groups: seq<seq<Bar>>, stamps: seq<int>, full: nat)
    ensures Divides(fine, coarse) ==>
              && |stamps| == |groups| && Split(bars, groups, stamps, fine, coarse) && Along(full, fine) == coarse
              && Accounts(Aggregated(bars, fine, coarse), Incomplete(bars, fine, coarse), groups, stamps,
                          if bars == [] then 0 else bars[0].instrument, full)
    ensures !Divides(fine, coarse) ==> Aggregated(bars, fine, coarse) == [] && Incomplete(bars, fine, coarse) == []
  {
    groups, stamps, full := [], [], 0;
    if Divides(fine, coarse) {
      DividesIsPositive(fine, coarse);
      full := Fits(fine, coarse);
      FullWidth(fine, coarse);
      hide Fits, Divides, Split, Accounts, BucketOf, EmitBar, EmitHole, ByRuns, Along;
      groups, stamps := RunsAccount(bars, if bars == [] then 0 else bars[0].instrument, fine, coarse);
      if bars == [] {
        NoRuns(BucketOf(fine, coarse), EmitBar(0, fine, coarse));
        NoRuns(BucketOf(fine, coarse), EmitHole(fine, coarse));
      }
    }
  }

  lemma FullWidth(fine: int, coarse: int)
    requires Divides(fine, coarse)
    ensures Fits(fine, coarse) >= 0 && Along(Fits(fine, coarse), fine) == coarse
  {
    DivMonotone(0, coarse, fine);
  }

  // ---------------------------------------------------------------- bars from prints

  ghost predicate PrintBucket(inputs: seq<Print>, width: int, stamp: int) {
    OnTheGrid(stamp, width) && forall p :: p in inputs ==> InGridBucket(p.ts, width, stamp)
  }

  /** The prints split in order into buckets, each next to a different one, and the k-th bar summarizes the k-th of them. */
  ghost predicate PrintsSummarized(out: seq<Bar>, prints: seq<Print>, groups: seq<seq<Print>>, instrument: nat, width: int) {
    && Chained(groups) == prints && |out| == |groups|
    && (forall k :: 0 <= k < |groups| ==>
          && out[k].instrument == instrument && SummarizesPrints(out[k], groups[k]) && PrintBucket(groups[k], width, out[k].ts))
    && (forall k :: 0 < k < |groups| ==> out[k - 1].ts != out[k].ts)
  }

  lemma PointsSummarize(b: Bar, instrument: nat, inputs: seq<Print>)
    requires Summarizes(b, Points(instrument, inputs))
    ensures SummarizesPrints(b, inputs)
  {
    var points := Points(instrument, inputs);
    PointVolumes(instrument, inputs);
    hide Points, Tally, IsNarrowed;
    PointCount(instrument, inputs);
    forall k | 0 <= k < |inputs| ensures points[k] == Point(instrument, inputs[k]) && points[k] in points { PointAt(instrument, inputs, k); }
    var h :| h in points && h.high == b.high;
    var i :| 0 <= i < |points| && points[i] == h;
    var l :| l in points && l.low == b.low;
    var j :| 0 <= j < |points| && points[j] == l;
    assert inputs[i] in inputs && inputs[j] in inputs;
  }

  lemma {:induction false} PointVolumes(instrument: nat, inputs: seq<Print>)
    ensures Tally(Points(instrument, inputs), VolumeOf()) == Tally(inputs, PrintQty())
  {
    if inputs != [] {
      var init := inputs[..|inputs| - 1];
      PointVolumes(instrument, init);
      assert Points(instrument, inputs)[..|inputs| - 1] == Points(instrument, init);
    }
  }

  lemma PointsBucket(instrument: nat, inputs: seq<Print>, width: int, stamp: int)
    requires Bucket(Points(instrument, inputs), 0, width, stamp)
    ensures PrintBucket(inputs, width, stamp)
  {
    hide OnTheGrid, Points;
    PointCount(instrument, inputs);
    forall p | p in inputs ensures InGridBucket(p.ts, width, stamp) {
      var k :| 0 <= k < |inputs| && inputs[k] == p;
      PointAt(instrument, inputs, k);
      assert Points(instrument, inputs)[k] in Points(instrument, inputs);
    }
  }

  lemma PrintsGrow(b: Bar, first: seq<Print>, out: seq<Bar>, rest: seq<Print>, groups: seq<seq<Print>>, instrument: nat, width: int)
    requires b.instrument == instrument && SummarizesPrints(b, first) && PrintBucket(first, width, b.ts)
    requires PrintsSummarized(out, rest, groups, instrument, width) && (out != [] ==> out[0].ts != b.ts)
    ensures PrintsSummarized([b] + out, first + rest, [first] + groups, instrument, width)
  {
    hide SummarizesPrints, PrintBucket;
    assert ([first] + groups)[1..] == groups;
  }

  lemma FirstPointsBar(instrument: nat, width: int, points: seq<Bar>) returns (n: nat, b: Bar)
    requires 0 < width && points != []
    ensures 0 < n <= |points| && b.instrument == instrument && b.ts == FirstStamp(points, 0, width)
    ensures Summarizes(b, points[..n]) && Bucket(points[..n], 0, width, b.ts)
    ensures n < |points| ==> FirstStamp(points[n..], 0, width) != b.ts
    ensures BarsOf(instrument, width, points) == [b] + BarsOf(instrument, width, points[n..])
  {
    hide RunLength, Summarizes, Bucket, SummaryOf, FloorTo, BucketOf, ByRuns, AsBar, FirstStamp;
    n := RunLength(points, BucketOf(0, width));
    b := FirstBucketBar(instrument, width, points, n);
    FirstRunIsBucket(points, 0, width, n);
    ByRunsStep(points, BucketOf(0, width), EmitBucket(instrument, width), n);
  }

  lemma FirstBucketBar(instrument: nat, width: int, points: seq<Bar>, n: nat) returns (b: Bar)
    requires 0 < width && 0 < n <= |points|
    ensures b.instrument == instrument && b.ts == FirstStamp(points, 0, width) && Summarizes(b, points[..n])
    ensures EmitBucket(instrument, width)(points[..n]) == [b]
  {
    hide Summarizes, SummaryOf, FloorTo;
    b := AsBar(instrument, FirstStamp(points, 0, width), SummaryOf(points[..n]));
    BarOfSummary(instrument, FirstStamp(points, 0, width), points[..n]);
  }

  /** The first run of prints gives the first bar. */
  lemma FirstPrints(instrument: nat, width: int, prints: seq<Print>) returns (n: nat, b: Bar)
    requires 0 < width && prints != []
    ensures 0 < n <= |prints| && |Points(instrument, prints)| == |prints| && |Points(instrument, prints[n..])| == |prints| - n
    ensures b.instrument == instrument && b.ts == FirstStamp(Points(instrument, prints), 0, width)
    ensures SummarizesPrints(b, prints[..n]) && PrintBucket(prints[..n], width, b.ts)
    ensures n < |prints| ==> FirstStamp(Points(instrument, prints[n..]), 0, width) != b.ts
    ensures BarsOf(instrument, width, Points(instrument, prints)) == [b] + BarsOf(instrument, width, Points(instrument, prints[n..]))
  {
    hide Points, Summarizes, SummarizesPrints, PrintBucket, Bucket, BarsOf, FirstStamp;
    PointParts(instrument, prints, 0);
    n, b := FirstPointsBar(instrument, width, Points(instrument, prints));
    PointParts(instrument, prints, n);
    PointsSummarize(b, instrument, prints[..n]);
    PointsBucket(instrument, prints[..n], width, b.ts);
    PointCount(instrument, prints[n..]);
  }

  lemma PointParts(instrument: nat, prints: seq<Print>, n: nat)
    requires n <= |prints|
    ensures |Points(instrument, prints)| == |prints|
    ensures Points(instrument, prints)[..n] == Points(instrument, prints[..n]) && Points(instrument, prints)[n..] == Points(instrument, prints[n..])
  {
  }

  lemma {:induction false} PrintRunsSummarize(instrument: nat, width: int, prints: seq<Print>) returns (groups: seq<seq<Print>>)
    requires 0 < width
    ensures PrintsSummarized(BarsOf(instrument, width, Points(instrument, prints)), prints, groups, instrument, width)
    ensures var out := BarsOf(instrument, width, Points(instrument, prints));
            |Points(instrument, prints)| == |prints| && (prints == [] <==> out == [])
            && (prints != [] ==> out[0].ts == FirstStamp(Points(instrument, prints), 0, width))
    decreases |prints|
  {
    hide Points, BarsOf, PrintsSummarized, SummarizesPrints, PrintBucket, FirstStamp;
    PointCount(instrument, prints);
    groups := [];
    if prints == [] {
      NoPrints(instrument, width, prints);
    } else {
      var n, b := FirstPrints(instrument, width, prints);
      groups := PrintRunsSummarize(instrument, width, prints[n..]);
      assert prints[..n] + prints[n..] == prints;
      PrintsGrow(b, prints[..n], BarsOf(instrument, width, Points(instrument, prints[n..])), prints[n..], groups, instrument, width);
      groups := [prints[..n]] + groups;
    }
  }

  lemma NoPrints(instrument: nat, width: int, prints: seq<Print>)
    requires 0 < width && prints == []
    ensures PrintsSummarized(BarsOf(instrument, width, Points(instrument, prints)), prints, [], instrument, width)
    ensures BarsOf(instrument, width, Points(instrument, prints)) == []
  {
    assert Points(instrument, prints) == [];
    NoPoints(instrument, width);
  }

  /** The bars made from prints summarize the buckets the prints fall in, one bar a bucket. */
  lemma PrintedBarsSummarize(instrument: nat, width: int, prints: seq<Print>) returns (groups: seq<seq<Print>>)
    ensures width > 0 ==> PrintsSummarized(BarsFrom(instrument, width, prints), prints, groups, instrument, width)
    ensures width <= 0 ==> BarsFrom(instrument, width, prints) == []
  {
    groups := [];
    if width > 0 {
      NoPrints(instrument, width, []);
      hide BarsOf, Points, PrintsSummarized, FirstStamp;
      groups := PrintRunsSummarize(instrument, width, prints);
    }
  }
}
