/** Aggregation composes: fine to middle to coarse is fine to coarse. */
module AggregationLaws {
  import opened Prelude
  import opened Trading
  import opened Runs
  import opened Aggregation

  // ---------------------------------------------------------------- the grid

  lemma FloorBounds(t: int, w: int)
    requires w > 0
    ensures FloorTo(t, w) <= t < FloorTo(t, w) + w
  {
  }

  lemma FloorApart(t: int, u: int, w: int)
    requires w > 0 && FloorTo(t, w) < FloorTo(u, w)
    ensures FloorTo(t, w) + w <= FloorTo(u, w)
  {
    var i, j := t / w, u / w;
    if j <= i { MulMonotone(j, i, w); }
    MulMonotone(i + 1, j, w);
    assert (i + 1) * w == i * w + w;
  }

  lemma FloorOfMultiple(k: int, w: int)
    requires w > 0
    ensures FloorTo(k * w, w) == k * w
  {
    var q := (k * w) / w;
    assert q * w <= k * w < q * w + w;
    assert (q + 1) * w == q * w + w && (k + 1) * w == k * w + w;
    CancelFactor(q, k, w);
    CancelFactor(k, q, w);
  }

  /** A multiple of the wider width is one of the narrower. */
  lemma FloorNested(t: int, mid: int, coarse: int)
    requires Divides(mid, coarse)
    ensures FloorTo(FloorTo(t, coarse), mid) == FloorTo(t, coarse)
    ensures FloorTo(FloorTo(t, coarse) + coarse, mid) == FloorTo(t, coarse) + coarse
  {
    var i, p := t / coarse, coarse / mid;
    assert coarse == p * mid;
    assert i * coarse == (i * p) * mid && i * coarse + coarse == (i * p + p) * mid by {
      assert i * (p * mid) == (i * p) * mid;
      assert (i * p + p) * mid == (i * p) * mid + p * mid;
    }
    FloorOfMultiple(i * p, mid);
    FloorOfMultiple(i * p + p, mid);
  }

  lemma FloorMonotone(t: int, u: int, w: int)
    requires w > 0 && t <= u
    ensures FloorTo(t, w) <= FloorTo(u, w)
  {
    FloorBounds(t, w);
    FloorBounds(u, w);
    if FloorTo(u, w) < FloorTo(t, w) { FloorApart(u, t, w); }
  }

  /** Flooring to the middle width first does not change the coarse bucket. */
  lemma FloorOfFloor(t: int, mid: int, coarse: int)
    requires Divides(mid, coarse)
    ensures FloorTo(t, coarse) <= FloorTo(t, mid)
    ensures FloorTo(FloorTo(t, mid), coarse) == FloorTo(t, coarse)
  {
    FloorBounds(t, coarse);
    FloorBounds(t, mid);
    FloorNested(t, mid, coarse);
    FloorMonotone(FloorTo(t, coarse), t, mid);
    var m := FloorTo(t, mid);
    FloorBounds(m, coarse);
    FloorMonotone(m, t, coarse);
    FloorMonotone(FloorTo(t, coarse), m, coarse);
    FloorOfMultiple(t / coarse, coarse);
  }

  // ---------------------------------------------------------------- regular bars

  /** Unique bars of one instrument on the grid of their width, in order, with no negative volume. */
  ghost predicate Regular(bars: seq<Bar>, width: int)
    requires width > 0
  {
    && (forall i :: 0 <= i < |bars| ==> bars[i].ts % width == 0 && bars[i].volume >= 0)
    && (forall i, j :: 0 <= i < j < |bars| ==> bars[i].ts < bars[j].ts)
  }

  lemma RegularPart(bars: seq<Bar>, width: int, i: nat, j: nat)
    requires width > 0 && Regular(bars, width) && i <= j <= |bars|
    ensures Regular(bars[i..j], width)
  {
  }

  lemma GridStep(s: int, t: int, width: int)
    requires width > 0 && s % width == 0 && t % width == 0 && s < t
    ensures s + width <= t
  {
    var i, j := s / width, t / width;
    assert s == i * width && t == j * width;
    if j <= i { MulMonotone(j, i, width); }
    MulMonotone(i + 1, j, width);
    assert (i + 1) * width == i * width + width;
  }

  lemma {:induction false} BarsSpread(bars: seq<Bar>, width: int)
    requires width > 0 && Regular(bars, width) && bars != []
    ensures bars[|bars| - 1].ts >= bars[0].ts + (|bars| - 1) * width
  {
    if |bars| > 1 {
      var init := bars[..|bars| - 1];
      BarsSpread(init, width);
      GridStep(bars[|bars| - 2].ts, bars[|bars| - 1].ts, width);
      assert (|bars| - 1) * width == (|bars| - 2) * width + width;
    }
  }

  function Times(k: nat, width: int): int {
    k * width
  }

  /** How many bars of one width fit a wider one. */
  function Fits(fine: int, wide: int): int
    requires 0 < fine
  {
    wide / fine
  }

  ghost predicate InBucket(bars: seq<Bar>, fine: int, coarse: int, open: int)
    requires coarse > 0
  {
    forall i :: 0 <= i < |bars| ==> FloorTo(bars[i].ts - fine, coarse) == open
  }

  /** A bucket holds at most as many bars as fit on its grid. */
  lemma BucketFits(bars: seq<Bar>, fine: int, coarse: int, open: int)
    requires Divides(fine, coarse) && Regular(bars, fine) && InBucket(bars, fine, coarse, open)
    ensures |bars| <= Fits(fine, coarse)
  {
    if bars != [] {
      BarsSpread(bars, fine);
      FloorBounds(bars[0].ts - fine, coarse);
      FloorBounds(bars[|bars| - 1].ts - fine, coarse);
      var n, q := |bars| - 1, coarse / fine;
      assert n * fine < coarse && coarse == q * fine;
      assert ((q - 1) + 1) * fine == q * fine;
      CancelFactor(n, q - 1, fine);
    } else {
      assert coarse / fine >= 1 by { DivMonotone(fine, coarse, fine); }
    }
  }

  // ---------------------------------------------------------------- summaries

  lemma {:induction false} SummaryConcat(a: seq<Bar>, b: seq<Bar>)
    requires a != [] && b != []
    ensures SummaryOf(a + b) == Joined(SummaryOf(a), SummaryOf(b))
  {
    if |b| == 1 {
      assert a + b == a + [b[0]];
      SummaryGrows(a, b[0]);
    } else {
      var init, last := b[..|b| - 1], b[|b| - 1];
      SummaryConcat(a, init);
      assert a + b == (a + init) + [last];
      SummaryGrows(a + init, last);
    }
  }

  lemma {:induction false} VolumeNonNegative(s: seq<Bar>)
    requires s != [] && forall i :: 0 <= i < |s| ==> s[i].volume >= 0
    ensures SummaryOf(s).volume >= 0
  {
    if |s| > 1 { VolumeNonNegative(s[..|s| - 1]); }
  }

  /** Equal up to narrowing the volume. */
  predicate Alike(a: Summary, b: Summary) {
    && a.open == b.open && a.high == b.high && a.low == b.low && a.close == b.close
    && a.volume >= 0 && b.volume >= 0 && Narrowed(a.volume) == Narrowed(b.volume)
  }

  lemma JoinAlike(a: Summary, x: Summary, y: Summary)
    requires a.volume >= 0 && Alike(x, y)
    ensures Alike(Joined(a.(volume := Narrowed(a.volume)), x), Joined(a, y))
  {
  }

  lemma NarrowAlike(a: Summary)
    requires a.volume >= 0
    ensures Alike(a.(volume := Narrowed(a.volume)), a)
  {
  }

  // ---------------------------------------------------------------- one coarse bucket

  lemma DividesIsPositive(fine: int, coarse: int)
    requires Divides(fine, coarse)
    ensures 0 < fine && 0 < coarse
  {
  }

  /** The middle bars of some fine bars. */
  function MiddleOf(h: seq<Bar>, instrument: nat, fine: int, mid: int): seq<Bar>
    requires 0 < fine && 0 < mid
  {
    ByRuns(h, BucketOf(fine, mid), EmitBar(instrument, fine, mid))
  }

  /** Bars of one coarse bucket, none of them before its last k middle slots. */
  ghost predicate InLastSlots(h: seq<Bar>, fine: int, mid: int, coarse: int, open: int, k: nat)
    requires 0 < fine && 0 < mid && 0 < coarse
  {
    && Regular(h, fine) && InBucket(h, fine, coarse, open)
    && (h != [] ==> FloorTo(h[0].ts - fine, mid) >= open + coarse - Times(k, mid))
  }

  lemma OneSlotLess(k: nat, mid: int)
    ensures Times(k + 1, mid) == Times(k, mid) + mid && Times(0, mid) == 0
  {
  }

  lemma FirstRunFits(h: seq<Bar>, fine: int, mid: int, n: nat)
    requires Divides(fine, mid) && h != [] && Regular(h, fine) && n == RunLength(h, BucketOf(fine, mid))
    ensures n <= Fits(fine, mid) && Regular(h[..n], fine) && InBucket(h[..n], fine, mid, FloorTo(h[0].ts - fine, mid))
  {
    hide FloorTo, Regular, RunLength, Fits, InBucket, BucketOf;
    RegularPart(h, fine, 0, n);
    assert h[0..n] == h[..n];
    RunInBucket(h, fine, mid, n);
    BucketFits(h[..n], fine, mid, FloorTo(h[0].ts - fine, mid));
  }

  lemma SlotsLeft(h: seq<Bar>, fine: int, mid: int, coarse: int, open: int, k: nat)
    requires Divides(fine, mid) && Divides(mid, coarse) && h != [] && InLastSlots(h, fine, mid, coarse, open, k)
    ensures k >= 1
  {
    hide FloorTo, Regular, Times, InBucket;
    BucketPart(h, fine, coarse, open, 0);
    LastSlotStart(h[0].ts - fine, mid, coarse, open);
    OneSlotLess(0, mid);
  }

  /** The first bar takes up a slot: what follows its run lies in the slots after it. */
  lemma FirstRunTakesASlot(h: seq<Bar>, fine: int, mid: int, coarse: int, open: int, k: nat, n: nat)
    requires Divides(fine, mid) && Divides(mid, coarse) && h != [] && InLastSlots(h, fine, mid, coarse, open, k)
    requires k >= 1 && n == RunLength(h, BucketOf(fine, mid))
    ensures InLastSlots(h[n..], fine, mid, coarse, open, k - 1)
  {
    hide FloorTo, Divides, Remainder, Regular, RunLength, Times, InBucket, BucketOf;
    DividesIsPositive(fine, mid);
    DividesIsPositive(mid, coarse);
    RegularPart(h, fine, n, |h|);
    assert h[n..|h|] == h[n..];
    BucketPart(h, fine, coarse, open, n);
    OneSlotLess(k - 1, mid);
    if n < |h| {
      NextRunIsLater(h, fine, mid, n);
    }
  }

  lemma BucketPart(h: seq<Bar>, fine: int, coarse: int, open: int, n: nat)
    requires 0 < coarse && n <= |h| && InBucket(h, fine, coarse, open)
    ensures InBucket(h[..n], fine, coarse, open) && InBucket(h[n..], fine, coarse, open)
    ensures h != [] ==> FloorTo(h[0].ts - fine, coarse) == open
  {
    hide FloorTo;
  }

  lemma BucketOfBar(b: Bar, fine: int, coarse: int)
    requires 0 < coarse
    ensures BucketOf(fine, coarse)(b) == FloorTo(b.ts - fine, coarse)
  {
    hide FloorTo;
  }

  lemma RunInBucket(h: seq<Bar>, fine: int, mid: int, n: nat)
    requires 0 < mid && h != [] && n == RunLength(h, BucketOf(fine, mid))
    ensures InBucket(h[..n], fine, mid, FloorTo(h[0].ts - fine, mid))
  {
    hide FloorTo, RunLength, BucketOf;
    BucketOfBar(h[0], fine, mid);
    forall i | 0 <= i < n ensures FloorTo(h[i].ts - fine, mid) == FloorTo(h[0].ts - fine, mid) {
      BucketOfBar(h[i], fine, mid);
      assert BucketOf(fine, mid)(h[i]) == BucketOf(fine, mid)(h[0]);
    }
  }

  lemma NextRunIsLater(h: seq<Bar>, fine: int, mid: int, n: nat)
    requires 0 < fine && 0 < mid && h != [] && Regular(h, fine) && n == RunLength(h, BucketOf(fine, mid)) < |h|
    ensures FloorTo(h[0].ts - fine, mid) + mid <= FloorTo(h[n].ts - fine, mid)
  {
    hide FloorTo, RunLength, BucketOf;
    BucketOfBar(h[0], fine, mid);
    BucketOfBar(h[n], fine, mid);
    FloorMonotone(h[0].ts - fine, h[n].ts - fine, mid);
    FloorApart(h[0].ts - fine, h[n].ts - fine, mid);
  }

  lemma LastSlotStart(t: int, mid: int, coarse: int, open: int)
    requires Divides(mid, coarse) && FloorTo(t, coarse) == open
    ensures FloorTo(t, mid) <= open + coarse - mid
  {
    FloorBounds(t, coarse);
    FloorBounds(t, mid);
    FloorNested(t, mid, coarse);
    FloorApart(t, open + coarse, mid);
  }

  lemma CapacityAdds(n: nat, l: nat, k: nat, q: int)
    requires k >= 1 && n <= q && l <= Times(k - 1, q)
    ensures n + l <= Times(k, q)
    ensures n + l == Times(k, q) <==> n == q && l == Times(k - 1, q)
  {
    OneSlotLess(k - 1, q);
  }

  ghost predicate MiddleLaw(x: seq<Bar>, instrument: nat, mid: int, coarse: int, open: int)
    requires 0 < coarse
  {
    InBucket(x, mid, coarse, open) && forall i :: 0 <= i < |x| ==> x[i].volume >= 0 && x[i].instrument == instrument
  }

  function MiddleBar(r: seq<Bar>, instrument: nat, fine: int, mid: int): Bar
    requires r != [] && 0 < mid
  {
    AsBar(instrument, FloorTo(r[0].ts - fine, mid) + mid, SummaryOf(r))
  }

  lemma FullRunEmits(r: seq<Bar>, instrument: nat, fine: int, mid: int)
    requires r != [] && 0 < fine && 0 < mid
    ensures EmitBar(instrument, fine, mid)(r) == if |r| == Fits(fine, mid) then [MiddleBar(r, instrument, fine, mid)] else []
  {
    hide FloorTo, SummaryOf, AsBar;
    assert BucketOf(fine, mid)(r[0]) == FloorTo(r[0].ts - fine, mid);
    assert mid / fine == Fits(fine, mid);
  }

  /** A full middle run is one middle bar of the same coarse bucket, */
  lemma MiddleBarIsLawful(r: seq<Bar>, instrument: nat, fine: int, mid: int, coarse: int, open: int)
    requires Divides(fine, mid) && Divides(mid, coarse) && r != [] && Regular(r, fine) && InBucket(r, fine, coarse, open)
    ensures MiddleLaw([MiddleBar(r, instrument, fine, mid)], instrument, mid, coarse, open)
  {
    RegularVolume(r, fine);
    FloorOfFloor(r[0].ts - fine, mid, coarse);
    BucketPart(r, fine, coarse, open, 0);
    hide FloorTo, SummaryOf, Regular, InBucket;
    var b := MiddleBar(r, instrument, fine, mid);
    assert b.ts - mid == FloorTo(r[0].ts - fine, mid);
    OneInBucket(b, mid, coarse, open);
  }

  lemma OneInBucket(b: Bar, mid: int, coarse: int, open: int)
    requires 0 < coarse && FloorTo(b.ts - mid, coarse) == open
    ensures InBucket([b], mid, coarse, open)
  {
  }

  /** and summarizes alike. */
  lemma MiddleBarSummary(r: seq<Bar>, instrument: nat, fine: int, mid: int)
    requires r != [] && 0 < mid
    ensures SummaryOf([MiddleBar(r, instrument, fine, mid)]) == SummaryOf(r).(volume := Narrowed(SummaryOf(r).volume))
  {
    hide FloorTo, Narrowed;
  }

  lemma RegularVolume(r: seq<Bar>, fine: int)
    requires 0 < fine && r != [] && Regular(r, fine)
    ensures SummaryOf(r).volume >= 0
  {
    VolumeNonNegative(r);
  }

  /** What one run contributes. */
  lemma FullRun(r: seq<Bar>, instrument: nat, fine: int, mid: int, coarse: int, open: int)
    requires Divides(fine, mid) && Divides(mid, coarse) && r != [] && Regular(r, fine) && InBucket(r, fine, coarse, open)
    ensures var x := EmitBar(instrument, fine, mid)(r);
            && MiddleLaw(x, instrument, mid, coarse, open)
            && |x| == (if |r| == Fits(fine, mid) then 1 else 0)
            && (x != [] ==> SummaryOf(x) == SummaryOf(r).(volume := Narrowed(SummaryOf(r).volume)))
  {
    FullRunEmits(r, instrument, fine, mid);
    MiddleBarIsLawful(r, instrument, fine, mid, coarse, open);
    MiddleBarSummary(r, instrument, fine, mid);
    assert MiddleLaw([], instrument, mid, coarse, open);
    hide FloorTo, SummaryOf, Regular, InBucket, MiddleBar, EmitBar, MiddleLaw, Fits, Narrowed;
  }

  /** k slots hold k full runs at most, all of them exactly when every fine bar is there; then they summarize alike. */
  ghost predicate CapacityLaw(h: seq<Bar>, x: seq<Bar>, instrument: nat, fine: int, mid: int, coarse: int, open: int, k: nat)
    requires 0 < fine && 0 < coarse
  {
    && |h| <= Times(k, Fits(fine, mid)) && |x| <= k && (|x| == k <==> |h| == Times(k, Fits(fine, mid)))
    && MiddleLaw(x, instrument, mid, coarse, open)
    && (k > 0 && |x| == k ==> x != [] && h != [] && Alike(SummaryOf(x), SummaryOf(h)))
  }

  lemma CapacityStep(r: seq<Bar>, rest: seq<Bar>, x: seq<Bar>, y: seq<Bar>, instrument: nat, fine: int, mid: int, coarse: int, open: int, k: nat)
    requires 0 < fine && 0 < coarse && k >= 1 && r != [] && |r| <= Fits(fine, mid)
    requires CapacityLaw(rest, y, instrument, fine, mid, coarse, open, k - 1) && MiddleLaw(x, instrument, mid, coarse, open)
    requires |x| == (if |r| == Fits(fine, mid) then 1 else 0) && SummaryOf(r).volume >= 0
    requires x != [] ==> SummaryOf(x) == SummaryOf(r).(volume := Narrowed(SummaryOf(r).volume))
    ensures CapacityLaw(r + rest, x + y, instrument, fine, mid, coarse, open, k)
  {
    hide Times, Fits, MiddleLaw, Alike, SummaryOf, Narrowed;
    CapacityAdds(|r|, |rest|, k, Fits(fine, mid));
    LawsJoin(x, y, instrument, mid, coarse, open);
    OneSlotLess(0, Fits(fine, mid));
    if |x + y| == k {
      SummariesJoin(x, y, r, rest);
    }
  }

  lemma MiddleStep(h: seq<Bar>, instrument: nat, fine: int, mid: int, n: nat)
    requires 0 < fine && 0 < mid && h != [] && n == RunLength(h, BucketOf(fine, mid))
    ensures MiddleOf(h, instrument, fine, mid) == EmitBar(instrument, fine, mid)(h[..n]) + MiddleOf(h[n..], instrument, fine, mid)
  {
    hide RunLength, EmitBar, BucketOf;
    ByRunsStep(h, BucketOf(fine, mid), EmitBar(instrument, fine, mid), n);
  }

  /** The length of the first middle run of a bucket, and what is left after it. */
  lemma FirstRun(h: seq<Bar>, instrument: nat, fine: int, mid: int, coarse: int, open: int, k: nat) returns (n: nat)
    requires Divides(fine, mid) && Divides(mid, coarse) && h != [] && InLastSlots(h, fine, mid, coarse, open, k)
    ensures 0 < n <= |h| && k >= 1 && n <= Fits(fine, mid) && Regular(h[..n], fine) && InBucket(h[..n], fine, coarse, open)
    ensures InLastSlots(h[n..], fine, mid, coarse, open, k - 1)
    ensures MiddleOf(h, instrument, fine, mid) == EmitBar(instrument, fine, mid)(h[..n]) + MiddleOf(h[n..], instrument, fine, mid)
  {
    n := RunLength(h, BucketOf(fine, mid));
    assert Regular(h, fine) && InBucket(h, fine, coarse, open);
    hide RunLength, FloorTo, Divides, Remainder, Regular, Times, Fits, BucketOf, InBucket, InLastSlots, MiddleOf, EmitBar;
    DividesIsPositive(fine, mid);
    DividesIsPositive(mid, coarse);
    SlotsLeft(h, fine, mid, coarse, open, k);
    FirstRunFits(h, fine, mid, n);
    FirstRunTakesASlot(h, fine, mid, coarse, open, k, n);
    BucketPart(h, fine, coarse, open, n);
    MiddleStep(h, instrument, fine, mid, n);
  }

  lemma {:induction false} BucketCapacity(h: seq<Bar>, instrument: nat, fine: int, mid: int, coarse: int, open: int, k: nat)
    requires Divides(fine, mid) && Divides(mid, coarse) && InLastSlots(h, fine, mid, coarse, open, k)
    ensures CapacityLaw(h, MiddleOf(h, instrument, fine, mid), instrument, fine, mid, coarse, open, k)
    decreases |h|
  {
    hide FloorTo, Divides, Remainder, EmitBar, SummaryOf, Regular, MiddleLaw, Times, Fits, CapacityLaw, InBucket, MiddleOf, InLastSlots;
    DividesIsPositive(fine, mid);
    DividesIsPositive(mid, coarse);
    if h == [] {
      EmptyCapacity(instrument, fine, mid, coarse, open, k);
    } else {
      var n := FirstRun(h, instrument, fine, mid, coarse, open, k);
      var r, rest := h[..n], h[n..];
      assert r + rest == h;
      BucketCapacity(rest, instrument, fine, mid, coarse, open, k - 1);
      FullRun(r, instrument, fine, mid, coarse, open);
      RegularVolume(r, fine);
      CapacityStep(r, rest, EmitBar(instrument, fine, mid)(r), MiddleOf(rest, instrument, fine, mid), instrument, fine, mid, coarse, open, k);
    }
  }

  lemma EmptyCapacity(instrument: nat, fine: int, mid: int, coarse: int, open: int, k: nat)
    requires Divides(fine, mid) && 0 < coarse
    ensures MiddleOf([], instrument, fine, mid) == []
    ensures CapacityLaw([], [], instrument, fine, mid, coarse, open, k)
  {
    DivMonotone(fine, mid, fine);
    if k > 0 { MulMonotone(1, k, Fits(fine, mid)); }
  }

  lemma LawsJoin(x: seq<Bar>, y: seq<Bar>, instrument: nat, mid: int, coarse: int, open: int)
    requires 0 < coarse && MiddleLaw(x, instrument, mid, coarse, open) && MiddleLaw(y, instrument, mid, coarse, open)
    ensures MiddleLaw(x + y, instrument, mid, coarse, open)
  {
  }

  lemma SummariesJoin(x: seq<Bar>, y: seq<Bar>, r: seq<Bar>, rest: seq<Bar>)
    requires x != [] && r != [] && (y == [] <==> rest == []) && SummaryOf(r).volume >= 0
    requires SummaryOf(x) == SummaryOf(r).(volume := Narrowed(SummaryOf(r).volume))
    requires y != [] ==> Alike(SummaryOf(y), SummaryOf(rest))
    ensures Alike(SummaryOf(x + y), SummaryOf(r + rest))
  {
    hide SummaryOf;
    if y == [] {
      assert x + y == x && r + rest == r;
      NarrowAlike(SummaryOf(r));
    } else {
      SummaryConcat(x, y);
      SummaryConcat(r, rest);
      JoinAlike(SummaryOf(r), SummaryOf(y), SummaryOf(rest));
    }
  }

  // ---------------------------------------------------------------- whole series

  lemma FitsMultiply(fine: int, mid: int, coarse: int)
    requires Divides(fine, mid) && Divides(mid, coarse)
    ensures Divides(fine, coarse) && Fits(mid, coarse) >= 1
    ensures Fits(fine, coarse) == Times(Fits(mid, coarse), Fits(fine, mid))
    ensures Times(Fits(mid, coarse), mid) == coarse
  {
    var p, q := coarse / mid, mid / fine;
    DivMonotone(mid, coarse, mid);
    assert coarse == p * mid && mid == q * fine;
    assert coarse == (p * q) * fine by { assert p * (q * fine) == (p * q) * fine; }
    MultipleDivides(p * q, fine);
  }

  lemma MultipleDivides(k: int, d: int)
    requires d > 0
    ensures (k * d) % d == 0 && (k * d) / d == k
  {
    FloorOfMultiple(k, d);
    var n := k * d;
    assert (n / d) * d + n % d == n;
    assert (n / d) * d == k * d;
    CancelFactor(n / d, k, d);
    CancelFactor(k, n / d, d);
  }

  ghost predicate Outside(h: seq<Bar>, fine: int, coarse: int, open: int)
    requires 0 < coarse
  {
    forall i :: 0 <= i < |h| ==> FloorTo(h[i].ts - fine, coarse) != open
  }

  lemma OutsideParts(h: seq<Bar>, fine: int, coarse: int, open: int, n: nat)
    requires 0 < coarse && Outside(h, fine, coarse, open) && n <= |h|
    ensures Outside(h[n..], fine, coarse, open) && (h != [] ==> FloorTo(h[0].ts - fine, coarse) != open)
  {
    hide FloorTo;
  }

  lemma OutsideJoins(x: seq<Bar>, y: seq<Bar>, fine: int, coarse: int, open: int)
    requires 0 < coarse && Outside(x, fine, coarse, open) && Outside(y, fine, coarse, open)
    ensures Outside(x + y, fine, coarse, open)
  {
    hide FloorTo;
  }

  lemma MiddleBarOutside(r: seq<Bar>, instrument: nat, fine: int, mid: int, coarse: int, open: int)
    requires Divides(fine, mid) && Divides(mid, coarse) && r != [] && FloorTo(r[0].ts - fine, coarse) != open
    ensures Outside(EmitBar(instrument, fine, mid)(r), mid, coarse, open)
  {
    FullRunEmits(r, instrument, fine, mid);
    FloorOfFloor(r[0].ts - fine, mid, coarse);
    hide FloorTo, EmitBar, SummaryOf, Fits;
    var b := MiddleBar(r, instrument, fine, mid);
    assert b.ts - mid == FloorTo(r[0].ts - fine, mid);
  }

  /** No middle bar falls in a coarse bucket that none of the fine bars falls in. */
  lemma {:induction false} MiddleAvoids(h: seq<Bar>, instrument: nat, fine: int, mid: int, coarse: int, open: int)
    requires Divides(fine, mid) && Divides(mid, coarse) && Outside(h, fine, coarse, open)
    ensures Outside(MiddleOf(h, instrument, fine, mid), mid, coarse, open)
    decreases |h|
  {
    if h != [] {
      hide RunLength, FloorTo, EmitBar, BucketOf, MiddleOf, Outside;
      var n := RunLength(h, BucketOf(fine, mid));
      OutsideParts(h, fine, coarse, open, n);
      MiddleAvoids(h[n..], instrument, fine, mid, coarse, open);
      MiddleBarOutside(h[..n], instrument, fine, mid, coarse, open);
      MiddleStep(h, instrument, fine, mid, n);
      OutsideJoins(EmitBar(instrument, fine, mid)(h[..n]), MiddleOf(h[n..], instrument, fine, mid), mid, coarse, open);
    }
  }

  /** The bars after a coarse run fall in later buckets. */
  lemma LaterBuckets(s: seq<Bar>, fine: int, coarse: int, n: nat)
    requires 0 < fine && 0 < coarse && s != [] && Regular(s, fine) && n == RunLength(s, BucketOf(fine, coarse))
    ensures Outside(s[n..], fine, coarse, FloorTo(s[0].ts - fine, coarse))
  {
    hide FloorTo, RunLength, BucketOf;
    if n < |s| {
      NextRunIsLater(s, fine, coarse, n);
      forall i | 0 <= i < |s[n..]| ensures FloorTo(s[n..][i].ts - fine, coarse) != FloorTo(s[0].ts - fine, coarse) {
        FloorMonotone(s[n].ts - fine, s[n + i].ts - fine, coarse);
      }
    }
  }

  /** The first coarse bucket, taken apart from the rest, in both ways up. */
  lemma MiddleSplits(s: seq<Bar>, instrument: nat, fine: int, mid: int, coarse: int, n: nat)
    requires Divides(fine, mid) && Divides(mid, coarse) && s != [] && n == RunLength(s, BucketOf(fine, coarse))
    ensures MiddleOf(s, instrument, fine, mid) == MiddleOf(s[..n], instrument, fine, mid) + MiddleOf(s[n..], instrument, fine, mid)
  {
    assert s == s[..n] + s[n..];
    if n < |s| {
      FloorOfFloor(s[n - 1].ts - fine, mid, coarse);
      FloorOfFloor(s[n].ts - fine, mid, coarse);
      assert BucketOf(fine, coarse)(s[n - 1]) != BucketOf(fine, coarse)(s[n]);
      hide FloorTo;
      assert BucketOf(fine, mid)(s[n - 1]) != BucketOf(fine, mid)(s[n]);
    }
    ByRunsSplit(s[..n], s[n..], BucketOf(fine, mid), EmitBar(instrument, fine, mid));
  }

  /** A coarse bucket gives the same bar from its fine bars as from its middle bars. */
  lemma BucketComposes(g: seq<Bar>, instrument: nat, fine: int, mid: int, coarse: int, open: int)
    requires Divides(fine, mid) && Divides(mid, coarse) && g != [] && Regular(g, fine)
    requires InBucket(g, fine, coarse, open) && FloorTo(g[0].ts - fine, coarse) == open
    ensures MiddleLaw(MiddleOf(g, instrument, fine, mid), instrument, mid, coarse, open)
    ensures EmitBar(instrument, mid, coarse)(MiddleOf(g, instrument, fine, mid)) == EmitBar(instrument, fine, coarse)(g)
  {
    var k := Fits(mid, coarse);
    FitsMultiply(fine, mid, coarse);
    FloorOfFloor(g[0].ts - fine, mid, coarse);
    hide MiddleOf, FloorTo, Times, Regular, Divides, Remainder, InBucket;
    assert InLastSlots(g, fine, mid, coarse, open, k);
    BucketCapacity(g, instrument, fine, mid, coarse, open, k);
    hide InLastSlots, EmitBar;
    EmitsAlike(g, MiddleOf(g, instrument, fine, mid), instrument, fine, mid, coarse, open, k);
  }

  lemma EmitsAlike(g: seq<Bar>, x: seq<Bar>, instrument: nat, fine: int, mid: int, coarse: int, open: int, k: nat)
    requires 0 < fine && 0 < mid && 0 < coarse && k == Fits(mid, coarse) && k >= 1
    requires Fits(fine, coarse) == Times(k, Fits(fine, mid)) && CapacityLaw(g, x, instrument, fine, mid, coarse, open, k)
    requires g != [] && FloorTo(g[0].ts - fine, coarse) == open
    ensures EmitBar(instrument, mid, coarse)(x) == EmitBar(instrument, fine, coarse)(g)
  {
    hide FloorTo, SummaryOf, Narrowed, Times, Fits;
    FullRunEmits(g, instrument, fine, coarse);
    if x != [] {
      FullRunEmits(x, instrument, mid, coarse);
      assert FloorTo(x[0].ts - mid, coarse) == open;
    }
  }

  lemma FirstBucket(s: seq<Bar>, fine: int, coarse: int, n: nat)
    requires 0 < fine && 0 < coarse && s != [] && Regular(s, fine) && n == RunLength(s, BucketOf(fine, coarse))
    ensures s[..n] != [] && s[..n][0] == s[0] && Regular(s[..n], fine) && Regular(s[n..], fine)
    ensures InBucket(s[..n], fine, coarse, FloorTo(s[0].ts - fine, coarse))
  {
    hide FloorTo, Regular, InBucket, BucketOf;
    RegularPart(s, fine, 0, n);
    RegularPart(s, fine, n, |s|);
    assert s[0..n] == s[..n] && s[n..|s|] == s[n..];
    RunInBucket(s, fine, coarse, n);
  }

  lemma RestIsOutside(s: seq<Bar>, instrument: nat, fine: int, mid: int, coarse: int, n: nat)
    requires Divides(fine, mid) && Divides(mid, coarse) && s != [] && Regular(s, fine) && n == RunLength(s, BucketOf(fine, coarse))
    ensures Outside(MiddleOf(s[n..], instrument, fine, mid), mid, coarse, FloorTo(s[0].ts - fine, coarse))
  {
    hide RunLength, FloorTo, Regular, MiddleOf, Outside, BucketOf, Divides, Remainder;
    DividesIsPositive(fine, mid);
    DividesIsPositive(mid, coarse);
    LaterBuckets(s, fine, coarse, n);
    MiddleAvoids(s[n..], instrument, fine, mid, coarse, FloorTo(s[0].ts - fine, coarse));
  }

  lemma {:induction false} RunsCompose(s: seq<Bar>, instrument: nat, fine: int, mid: int, coarse: int)
    requires Divides(fine, mid) && Divides(mid, coarse) && Regular(s, fine)
    ensures ByRuns(MiddleOf(s, instrument, fine, mid), BucketOf(mid, coarse), EmitBar(instrument, mid, coarse))
            == ByRuns(s, BucketOf(fine, coarse), EmitBar(instrument, fine, coarse))
    decreases |s|
  {
    hide RunLength, FloorTo, EmitBar, Regular, InBucket, MiddleLaw, Outside, BucketOf, Divides, Remainder, ByRuns;
    DividesIsPositive(fine, mid);
    DividesIsPositive(mid, coarse);
    if s == [] {
      NoRuns(BucketOf(fine, mid), EmitBar(instrument, fine, mid));
      NoRuns(BucketOf(mid, coarse), EmitBar(instrument, mid, coarse));
      NoRuns(BucketOf(fine, coarse), EmitBar(instrument, fine, coarse));
    } else {
      hide MiddleOf;
      var n := RunLength(s, BucketOf(fine, coarse));
      FirstBucket(s, fine, coarse, n);
      MiddleSplits(s, instrument, fine, mid, coarse, n);
      BucketComposes(s[..n], instrument, fine, mid, coarse, FloorTo(s[0].ts - fine, coarse));
      RestIsOutside(s, instrument, fine, mid, coarse, n);
      RunsCompose(s[n..], instrument, fine, mid, coarse);
      BucketsJoin(MiddleOf(s[..n], instrument, fine, mid), MiddleOf(s[n..], instrument, fine, mid), instrument, mid, coarse,
                  FloorTo(s[0].ts - fine, coarse));
      ByRunsStep(s, BucketOf(fine, coarse), EmitBar(instrument, fine, coarse), n);
    }
  }

  lemma UniformRun(x: seq<Bar>, instrument: nat, mid: int, coarse: int, open: int)
    requires 0 < mid && 0 < coarse && x != [] && InBucket(x, mid, coarse, open)
    ensures ByRuns(x, BucketOf(mid, coarse), EmitBar(instrument, mid, coarse)) == EmitBar(instrument, mid, coarse)(x)
  {
    hide FloorTo, EmitBar;
    var key := BucketOf(mid, coarse);
    forall i | 0 <= i < |x| ensures key(x[i]) == key(x[0]) {
      assert FloorTo(x[i].ts - mid, coarse) == open && FloorTo(x[0].ts - mid, coarse) == open;
    }
    ByRunsUniform(x, key, EmitBar(instrument, mid, coarse));
  }

  lemma BucketsApart(x: seq<Bar>, y: seq<Bar>, instrument: nat, mid: int, coarse: int, open: int)
    requires 0 < mid && 0 < coarse && x != [] && y != [] && MiddleLaw(x, instrument, mid, coarse, open) && Outside(y, mid, coarse, open)
    ensures BucketOf(mid, coarse)(x[|x| - 1]) != BucketOf(mid, coarse)(y[0])
  {
    hide FloorTo;
    assert FloorTo(x[|x| - 1].ts - mid, coarse) == open && FloorTo(y[0].ts - mid, coarse) != open;
  }

  /** One bucket's middle bars, then others: the image of the bucket comes first. */
  lemma BucketsJoin(x: seq<Bar>, y: seq<Bar>, instrument: nat, mid: int, coarse: int, open: int)
    requires 0 < mid && 0 < coarse && MiddleLaw(x, instrument, mid, coarse, open) && Outside(y, mid, coarse, open)
    ensures ByRuns(x + y, BucketOf(mid, coarse), EmitBar(instrument, mid, coarse))
            == EmitBar(instrument, mid, coarse)(x) + ByRuns(y, BucketOf(mid, coarse), EmitBar(instrument, mid, coarse))
  {
    assert x == [] ==> EmitBar(instrument, mid, coarse)(x) == [];
    hide FloorTo, EmitBar, ByRuns, BucketOf, InBucket, Outside;
    if x == [] {
      assert x + y == y;
    } else {
      UniformRun(x, instrument, mid, coarse, open);
      if y != [] { BucketsApart(x, y, instrument, mid, coarse, open); }
      ByRunsSplit(x, y, BucketOf(mid, coarse), EmitBar(instrument, mid, coarse));
    }
  }

  /**
   * Aggregation composes: over unique bars on their grid, with no negative volume, going from fine
   * to middle to coarse gives exactly the bars that going from fine to coarse gives.
   */
  lemma AggregationComposes(bars: seq<Bar>, fine: int, mid: int, coarse: int)
    requires Divides(fine, mid) && Divides(mid, coarse) && Regular(bars, fine)
    ensures Aggregated(Aggregated(bars, fine, mid), mid, coarse) == Aggregated(bars, fine, coarse)
  {
    if bars != [] {
      FitsMultiply(fine, mid, coarse);
      var instrument := bars[0].instrument;
      RunsCompose(bars, instrument, fine, mid, coarse);
      MiddleInstrument(bars, instrument, fine, mid);
      hide ByRuns, EmitBar, BucketOf, Regular, Fits, Times;
      var middle := Aggregated(bars, fine, mid);
      assert middle == MiddleOf(bars, instrument, fine, mid);
      NoRuns(BucketOf(mid, coarse), EmitBar(instrument, mid, coarse));
    }
  }

  ghost predicate AllOf(x: seq<Bar>, instrument: nat) {
    forall i :: 0 <= i < |x| ==> x[i].instrument == instrument
  }

  lemma {:induction false} MiddleInstrument(h: seq<Bar>, instrument: nat, fine: int, mid: int)
    requires 0 < fine && 0 < mid
    ensures AllOf(MiddleOf(h, instrument, fine, mid), instrument)
    decreases |h|
  {
    if h != [] {
      hide RunLength, FloorTo, EmitBar, BucketOf, SummaryOf, MiddleOf, Fits;
      var n := RunLength(h, BucketOf(fine, mid));
      MiddleInstrument(h[n..], instrument, fine, mid);
      MiddleStep(h, instrument, fine, mid, n);
      FullRunEmits(h[..n], instrument, fine, mid);
      AllOfJoin(EmitBar(instrument, fine, mid)(h[..n]), MiddleOf(h[n..], instrument, fine, mid), instrument);
    }
  }

  lemma AllOfJoin(x: seq<Bar>, y: seq<Bar>, instrument: nat)
    requires AllOf(x, instrument) && AllOf(y, instrument)
    ensures AllOf(x + y, instrument)
  {
  }
}
