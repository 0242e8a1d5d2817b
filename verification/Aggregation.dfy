/**
 * Bucketing trade prints into bars and finer bars into coarser ones. On a grid of unique bars
 * aggregation composes: going up in two steps gives what one step gives.
 */
module Aggregation {
  import opened Prelude
  import opened Trading
  import opened Runs

  /** A sum of volumes narrowed to 64 bits: whatever does not fit becomes the largest value. */
  function Narrowed(v: int): int {
    if I64_MIN <= v <= I64_MAX then v else I64_MAX
  }

  function FloorTo(t: int, width: int): int
    requires width > 0
  {
    (t / width) * width
  }

  // ---------------------------------------------------------------- summaries of a bucket

  datatype Summary = Summary(open: int, high: int, low: int, close: int, volume: int)

  function Joined(a: Summary, b: Summary): Summary {
    Summary(a.open, Max(a.high, b.high), Min(a.low, b.low), b.close, a.volume + b.volume)
  }

  function OfBar(b: Bar): Summary {
    Summary(b.open, b.high, b.low, b.close, b.volume)
  }

  function SummaryOf(s: seq<Bar>): Summary
    requires s != []
  {
    if |s| == 1 then OfBar(s[0]) else Joined(SummaryOf(s[..|s| - 1]), OfBar(s[|s| - 1]))
  }

  function AsBar(instrument: nat, ts: int, m: Summary): Bar {
    Bar(instrument, ts, m.open, m.high, m.low, m.close, Narrowed(m.volume))
  }

  // ---------------------------------------------------------------- aggregation by runs

  /** The bucket a bar falls in, by its open time, when bars are `fine` wide and buckets `coarse`. */
  function BucketOf(fine: int, coarse: int): Bar -> int
    requires coarse > 0
  {
    (b: Bar) => FloorTo(b.ts - fine, coarse)
  }

  /** A bucket becomes a bar when it holds every bar it can. */
  function EmitBar(instrument: nat, fine: int, coarse: int): seq<Bar> -> seq<Bar>
    requires 0 < fine
  {
    (s: seq<Bar>) =>
      if s != [] && coarse > 0 && |s| == coarse / fine then
        [AsBar(instrument, BucketOf(fine, coarse)(s[0]) + coarse, SummaryOf(s))]
      else []
  }

  function EmitHole(fine: int, coarse: int): seq<Bar> -> seq<int>
    requires 0 < fine
  {
    (s: seq<Bar>) =>
      if s != [] && coarse > 0 && |s| != coarse / fine then [BucketOf(fine, coarse)(s[0]) + coarse] else []
  }

  function Remainder(a: int, b: int): int
    requires b > 0
  {
    a % b
  }

  predicate Divides(fine: int, coarse: int) {
    0 < fine <= coarse && Remainder(coarse, fine) == 0
  }

  function Aggregated(bars: seq<Bar>, fine: int, coarse: int): seq<Bar> {
    if bars == [] || !Divides(fine, coarse) then []
    else ByRuns(bars, BucketOf(fine, coarse), EmitBar(bars[0].instrument, fine, coarse))
  }

  function Incomplete(bars: seq<Bar>, fine: int, coarse: int): seq<int> {
    if bars == [] || !Divides(fine, coarse) then []
    else ByRuns(bars, BucketOf(fine, coarse), EmitHole(fine, coarse))
  }

  // ---------------------------------------------------------------- in place

  lemma SummaryGrows(s: seq<Bar>, b: Bar)
    requires s != []
    ensures SummaryOf(s + [b]) == Joined(SummaryOf(s), OfBar(b))
  {
    assert (s + [b])[..|s|] == s;
  }

  /** Close the run fine[start..i]: what it emits comes off the front of what is left. */
  lemma RunCloses<U>(bars: seq<Bar>, start: nat, i: nat, key: Bar -> int, emit: seq<Bar> -> seq<U>)
    requires start < i <= |bars| && forall j :: start <= j < i ==> key(bars[j]) == key(bars[start])
    requires i < |bars| ==> key(bars[i]) != key(bars[start])
    ensures ByRuns(bars[start..], key, emit) == emit(bars[start..i]) + ByRuns(bars[i..], key, emit)
  {
    var rest := bars[start..];
    RunIs(rest, key, i - start);
    assert rest[..i - start] == bars[start..i] && rest[i - start..] == bars[i..];
  }

  /** The values a pass carries: the bucket being filled, what it summarizes to, and how many bars it has. */
  datatype Running = Running(bucket: Option<int>, m: Summary, count: int)

  const NOTHING := Summary(0, 0, 0, 0, 0)

  /** They describe the bars since `start`. */
  ghost predicate Describes(run: Running, bars: seq<Bar>, start: nat, i: nat, key: Bar -> int) {
    if run.bucket.None? then
      start == i == 0
    else
      && start < i <= |bars| && run.count == i - start && run.m == SummaryOf(bars[start..i])
      && forall j :: start <= j < i ==> key(bars[j]) == run.bucket.value
  }

  lemma DescribesMore(run: Running, bars: seq<Bar>, start: nat, i: nat, key: Bar -> int)
    requires i < |bars| && run.bucket.Some? && Describes(run, bars, start, i, key) && key(bars[i]) == run.bucket.value
    ensures Describes(Running(run.bucket, Joined(run.m, OfBar(bars[i])), run.count + 1), bars, start, i + 1, key)
  {
    SummaryGrows(bars[start..i], bars[i]);
    assert bars[start..i + 1] == bars[start..i] + [bars[i]];
  }

  lemma DescribesOne(bars: seq<Bar>, i: nat, key: Bar -> int)
    requires i < |bars|
    ensures Describes(Running(Some(key(bars[i])), OfBar(bars[i]), 1), bars, i, i + 1, key)
  {
    assert bars[i..i + 1] == [bars[i]];
  }

  /** After i bars: what has been emitted, then the images of the runs from the open one on. */
  ghost predicate PassLaw(fine: seq<Bar>, i: nat, start: nat, run: Running, instrument: nat, fineNs: int, coarseNs: int,
                          bars: seq<Bar>, incomplete: seq<int>)
    requires fineNs > 0 && coarseNs > 0
  {
    var key, emitBar, emitHole := BucketOf(fineNs, coarseNs), EmitBar(instrument, fineNs, coarseNs), EmitHole(fineNs, coarseNs);
    && start <= i <= |fine| && Describes(run, fine, start, i, key)
    && bars + ByRuns(fine[start..], key, emitBar) == ByRuns(fine, key, emitBar)
    && incomplete + ByRuns(fine[start..], key, emitHole) == ByRuns(fine, key, emitHole)
  }

  lemma PassStarts(fine: seq<Bar>, instrument: nat, fineNs: int, coarseNs: int)
    requires fineNs > 0 && coarseNs > 0
    ensures PassLaw(fine, 0, 0, Running(None, NOTHING, 0), instrument, fineNs, coarseNs, [], [])
  {
    assert fine[0..] == fine;
  }

  lemma PassEnds(fine: seq<Bar>, start: nat, run: Running, instrument: nat, fineNs: int, coarseNs: int, bars: seq<Bar>, incomplete: seq<int>)
    requires fineNs > 0 && coarseNs > 0 && fine != []
    requires PassLaw(fine, |fine|, start, run, instrument, fineNs, coarseNs, bars, incomplete)
    ensures run.bucket.Some?
    ensures ByRuns(fine, BucketOf(fineNs, coarseNs), EmitBar(instrument, fineNs, coarseNs))
            == bars + FlushedBar(run, instrument, fineNs, coarseNs)
    ensures ByRuns(fine, BucketOf(fineNs, coarseNs), EmitHole(fineNs, coarseNs)) == incomplete + FlushedHole(run, fineNs, coarseNs)
  {
    FlushCloses(run, fine, start, |fine|, instrument, fineNs, coarseNs, bars, incomplete);
    assert fine[|fine|..] == [];
  }

  lemma PassTurns(fine: seq<Bar>, i: nat, start: nat, run: Running, instrument: nat, fineNs: int, coarseNs: int,
                  bars: seq<Bar>, incomplete: seq<int>)
    requires fineNs > 0 && coarseNs > 0 && i < |fine| && run.bucket.Some? && BucketOf(fineNs, coarseNs)(fine[i]) != run.bucket.value
    requires PassLaw(fine, i, start, run, instrument, fineNs, coarseNs, bars, incomplete)
    ensures PassLaw(fine, i + 1, i, Running(Some(BucketOf(fineNs, coarseNs)(fine[i])), OfBar(fine[i]), 1), instrument, fineNs, coarseNs,
                    bars + FlushedBar(run, instrument, fineNs, coarseNs), incomplete + FlushedHole(run, fineNs, coarseNs))
  {
    FlushCloses(run, fine, start, i, instrument, fineNs, coarseNs, bars, incomplete);
    DescribesOne(fine, i, BucketOf(fineNs, coarseNs));
    hide Describes, ByRuns, EmitBar, EmitHole, FlushedBar, FlushedHole;
  }

  lemma PassOpens(fine: seq<Bar>, i: nat, start: nat, run: Running, instrument: nat, fineNs: int, coarseNs: int,
                  bars: seq<Bar>, incomplete: seq<int>)
    requires fineNs > 0 && coarseNs > 0 && i < |fine| && run.bucket.None?
    requires PassLaw(fine, i, start, run, instrument, fineNs, coarseNs, bars, incomplete)
    ensures PassLaw(fine, i + 1, i, Running(Some(BucketOf(fineNs, coarseNs)(fine[i])), OfBar(fine[i]), 1), instrument, fineNs, coarseNs,
                    bars, incomplete)
  {
    DescribesOne(fine, i, BucketOf(fineNs, coarseNs));
  }

  lemma PassContinues(fine: seq<Bar>, i: nat, start: nat, run: Running, instrument: nat, fineNs: int, coarseNs: int,
                      bars: seq<Bar>, incomplete: seq<int>)
    requires fineNs > 0 && coarseNs > 0 && i < |fine| && run.bucket == Some(BucketOf(fineNs, coarseNs)(fine[i]))
    requires PassLaw(fine, i, start, run, instrument, fineNs, coarseNs, bars, incomplete)
    ensures PassLaw(fine, i + 1, start, Running(run.bucket, Joined(run.m, OfBar(fine[i])), run.count + 1), instrument, fineNs, coarseNs,
                    bars, incomplete)
  {
    DescribesMore(run, fine, start, i, BucketOf(fineNs, coarseNs));
    hide Describes, ByRuns, EmitBar, EmitHole;
  }

  /** A pass over the bars with running values, flushing each bucket when the next one begins. */
  method BucketPass(fine: seq<Bar>, instrument: nat, fineNs: int, coarseNs: int) returns (bars: seq<Bar>, incomplete: seq<int>)
    requires fine != [] && 0 < fineNs && 0 < coarseNs
    ensures bars == ByRuns(fine, BucketOf(fineNs, coarseNs), EmitBar(instrument, fineNs, coarseNs))
    ensures incomplete == ByRuns(fine, BucketOf(fineNs, coarseNs), EmitHole(fineNs, coarseNs))
  {
    hide PassLaw, ByRuns, EmitBar, EmitHole, FlushedBar, FlushedHole, FloorTo;
    bars, incomplete := [], [];
    var run := Running(None, NOTHING, 0);
    ghost var start: nat := 0;
    PassStarts(fine, instrument, fineNs, coarseNs);
    for i := 0 to |fine|
      invariant PassLaw(fine, i, start, run, instrument, fineNs, coarseNs, bars, incomplete)
    {
      var b := fine[i];
      var open := FloorTo(b.ts - fineNs, coarseNs);
      if run.bucket == Some(open) {
        PassContinues(fine, i, start, run, instrument, fineNs, coarseNs, bars, incomplete);
        run := Running(run.bucket, Joined(run.m, OfBar(b)), run.count + 1);
      } else {
        if run.bucket.Some? {
          PassTurns(fine, i, start, run, instrument, fineNs, coarseNs, bars, incomplete);
          bars, incomplete := Flushed(bars, incomplete, instrument, fineNs, coarseNs, run);
        } else {
          PassOpens(fine, i, start, run, instrument, fineNs, coarseNs, bars, incomplete);
        }
        run, start := Running(Some(open), OfBar(b), 1), i;
      }
    }
    PassEnds(fine, start, run, instrument, fineNs, coarseNs, bars, incomplete);
    bars, incomplete := Flushed(bars, incomplete, instrument, fineNs, coarseNs, run);
  }

  method AggregateBarsChecked(fine: seq<Bar>, fineNs: int, coarseNs: int) returns (bars: seq<Bar>, incomplete: seq<int>)
    ensures bars == Aggregated(fine, fineNs, coarseNs)
    ensures incomplete == Incomplete(fine, fineNs, coarseNs)
  {
    if fine == [] || fineNs <= 0 || coarseNs < fineNs || coarseNs % fineNs != 0 {
      return [], [];
    }
    bars, incomplete := BucketPass(fine, fine[0].instrument, fineNs, coarseNs);
  }

  function FlushedBar(run: Running, instrument: nat, fine: int, coarse: int): seq<Bar>
    requires fine > 0 && run.bucket.Some?
  {
    if run.count == coarse / fine then [AsBar(instrument, run.bucket.value + coarse, run.m)] else []
  }

  function FlushedHole(run: Running, fine: int, coarse: int): seq<int>
    requires fine > 0 && run.bucket.Some?
  {
    if run.count == coarse / fine then [] else [run.bucket.value + coarse]
  }

  lemma FlushedImage(run: Running, fine: seq<Bar>, start: nat, i: nat, instrument: nat, fineNs: int, coarseNs: int)
    requires fineNs > 0 && coarseNs > 0 && i <= |fine| && run.bucket.Some? && Describes(run, fine, start, i, BucketOf(fineNs, coarseNs))
    ensures start < i
    ensures EmitBar(instrument, fineNs, coarseNs)(fine[start..i]) == FlushedBar(run, instrument, fineNs, coarseNs)
    ensures EmitHole(fineNs, coarseNs)(fine[start..i]) == FlushedHole(run, fineNs, coarseNs)
  {
    hide SummaryOf, FloorTo, AsBar;
  }

  /** Flushing emits the image of the run that ends here. */
  lemma FlushCloses(run: Running, fine: seq<Bar>, start: nat, i: nat, instrument: nat, fineNs: int, coarseNs: int,
                    bars: seq<Bar>, incomplete: seq<int>)
    requires fineNs > 0 && coarseNs > 0 && i <= |fine| && run.bucket.Some?
    requires var key := BucketOf(fineNs, coarseNs);
             Describes(run, fine, start, i, key) && (i < |fine| ==> key(fine[i]) != run.bucket.value)
    ensures var key, emitBar, emitHole := BucketOf(fineNs, coarseNs), EmitBar(instrument, fineNs, coarseNs), EmitHole(fineNs, coarseNs);
            && bars + ByRuns(fine[start..], key, emitBar)
               == bars + FlushedBar(run, instrument, fineNs, coarseNs) + ByRuns(fine[i..], key, emitBar)
            && incomplete + ByRuns(fine[start..], key, emitHole)
               == incomplete + FlushedHole(run, fineNs, coarseNs) + ByRuns(fine[i..], key, emitHole)
  {
    var key, emitBar, emitHole := BucketOf(fineNs, coarseNs), EmitBar(instrument, fineNs, coarseNs), EmitHole(fineNs, coarseNs);
    FlushedImage(run, fine, start, i, instrument, fineNs, coarseNs);
    hide ByRuns, EmitBar, EmitHole, FlushedBar, FlushedHole, BucketOf, SummaryOf;
    RunCloses(fine, start, i, key, emitBar);
    RunCloses(fine, start, i, key, emitHole);
    Associates(bars, FlushedBar(run, instrument, fineNs, coarseNs), ByRuns(fine[i..], key, emitBar));
    Associates(incomplete, FlushedHole(run, fineNs, coarseNs), ByRuns(fine[i..], key, emitHole));
  }

  /** A full bucket is a finished bar; a partial one is reported by its stamp. */
  method Flushed(bars: seq<Bar>, incomplete: seq<int>, instrument: nat, fine: int, coarse: int, run: Running)
    returns (b: seq<Bar>, inc: seq<int>)
    requires fine > 0 && run.bucket.Some?
    ensures b == bars + FlushedBar(run, instrument, fine, coarse)
    ensures inc == incomplete + FlushedHole(run, fine, coarse)
  {
    b, inc := bars, incomplete;
    var stamp := run.bucket.value + coarse;
    if run.count == coarse / fine {
      b := b + [AsBar(instrument, stamp, run.m)];
    } else {
      inc := inc + [stamp];
    }
  }
}
