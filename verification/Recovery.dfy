/**
 * Resuming an interrupted download. A journal left behind becomes a chunk of the venue's own bars,
 * recorded unless that overlaps what is; this is exactly what it does to a series, when it keeps a
 * valid series valid, and which of the bars it held are known afterwards. Connectors that journal
 * nothing outside the window they were asked for keep every reachable state valid.
 */
module Recovery {
  import opened Prelude
  import opened Trading
  import opened Gap
  import opened BarSets
  import opened CacheProtocol
  import opened Loader
  import opened LoaderGrid
  import M = Manifest

  // ---------------------------------------------------------------- what recovery does

  function ChunkOf(run: seq<Bar>): M.Chunk
    requires Collected(run) != []
  {
    var span := Span(Collected(run));
    M.Chunk(M.ChunkFile(span), span, M.Bars)
  }

  /** The series after one journal has been recovered. */
  function RecoveredFrom(e: M.Entry, run: seq<Bar>): (f: M.Entry)
    requires M.Aligned(e)
    ensures M.Aligned(f)
  {
    if Collected(run) != [] && M.Accepts(e, ChunkOf(run).range) then M.Inserted(e, ChunkOf(run)) else e
  }

  /** And after several, in this order. */
  function RecoveredAll(e: M.Entry, runs: seq<seq<Bar>>): (f: M.Entry)
    requires M.Aligned(e)
    ensures M.Aligned(f)
  {
    if runs == [] then e else RecoveredFrom(RecoveredAll(e, runs[..|runs| - 1]), runs[|runs| - 1])
  }

  function RunsOf(journals: map<Range, seq<Bar>>, order: seq<Range>): seq<seq<Bar>> {
    seq(|order|, i requires 0 <= i < |order| => if order[i] in journals then journals[order[i]] else [])
  }

  /** The order lists every journal once. */
  ghost predicate Lists(order: seq<Range>, journals: map<Range, seq<Bar>>) {
    && (forall i, j :: 0 <= i < j < |order| ==> order[i] != order[j])
    && (forall g :: g in order <==> g in journals)
  }

  // ---------------------------------------------------------------- when the series stays valid

  /** The run is refused, or clashes with no single stamp. */
  ghost predicate Harmless(e: M.Entry, run: seq<Bar>) {
    Collected(run) != [] && M.Accepts(e, ChunkOf(run).range) ==> !M.Clashes(e.ranges, ChunkOf(run).range)
  }

  /** A recovered journal keeps a valid series valid exactly when it is refused or clashes with no single stamp. */
  lemma RecoveryStaysValid(e: M.Entry, run: seq<Bar>)
    requires M.Valid(e) && AllWellOrdered(e.ranges)
    ensures M.Valid(RecoveredFrom(e, run)) <==> Harmless(e, run)
  {
    hide Collected, M.Valid, M.Inserted, M.Clashes, M.Accepts;
    if Collected(run) != [] && M.Accepts(e, ChunkOf(run).range) {
      M.RecordingStaysValid(e, ChunkOf(run));
    }
  }

  lemma RecoveryStaysOrdered(e: M.Entry, run: seq<Bar>)
    requires M.Aligned(e) && AllWellOrdered(e.ranges)
    ensures AllWellOrdered(RecoveredFrom(e, run).ranges)
  {
    hide Collected, M.Inserted;
    if Collected(run) != [] && M.Accepts(e, ChunkOf(run).range) {
      InsertedMembers(e, ChunkOf(run));
    }
  }

  /** No insertion repairs a series whose ranges are out of order. */
  lemma InvalidStays(e: M.Entry, c: M.Chunk)
    requires M.Aligned(e) && !M.Valid(e) && c.range.lo <= c.range.hi
    ensures !M.Valid(M.Inserted(e, c))
  {
    M.InsertedShape(e, c);
    var at := M.InsertionPoint(e.ranges, c.range.lo);
    hide M.InsertionPoint, M.Inserted;
    var k :| 0 < k < |e.ranges| && e.ranges[k].lo < e.ranges[k - 1].hi;
    var t := M.Inserted(e, c).ranges;
    if k < at {
      assert t[k] == e.ranges[k] && t[k - 1] == e.ranges[k - 1];
    } else if k > at {
      assert t[k + 1] == e.ranges[k] && t[k] == e.ranges[k - 1];
    } else {
      assert t[k - 1] == e.ranges[k - 1] && t[k] == c.range && t[k + 1] == e.ranges[k];
    }
  }

  lemma InvalidRecoveryStays(e: M.Entry, run: seq<Bar>)
    requires M.Aligned(e) && !M.Valid(e)
    ensures !M.Valid(RecoveredFrom(e, run))
  {
    hide Collected, M.Inserted, M.Valid;
    if Collected(run) != [] && M.Accepts(e, ChunkOf(run).range) {
      InvalidStays(e, ChunkOf(run));
    }
  }

  /** Every journal was harmless when it came to be recovered. */
  ghost predicate AllHarmless(e: M.Entry, runs: seq<seq<Bar>>)
    requires M.Aligned(e)
  {
    runs == [] || (AllHarmless(e, runs[..|runs| - 1]) && Harmless(RecoveredAll(e, runs[..|runs| - 1]), runs[|runs| - 1]))
  }

  /** The recovery of all journals keeps a valid series valid exactly when each was harmless when it came. */
  lemma {:induction false} AllRecoveryStaysValid(e: M.Entry, runs: seq<seq<Bar>>)
    requires M.Valid(e) && AllWellOrdered(e.ranges)
    ensures AllWellOrdered(RecoveredAll(e, runs).ranges)
    ensures M.Valid(RecoveredAll(e, runs)) <==> AllHarmless(e, runs)
  {
    if runs != [] {
      hide RecoveredFrom, M.Valid, Harmless, AllWellOrdered;
      var init, run := runs[..|runs| - 1], runs[|runs| - 1];
      AllRecoveryStaysValid(e, init);
      var mid := RecoveredAll(e, init);
      RecoveryStaysOrdered(mid, run);
      if M.Valid(mid) { RecoveryStaysValid(mid, run); } else { InvalidRecoveryStays(mid, run); }
    }
  }

  // ---------------------------------------------------------------- which bars resume

  lemma RunSpans(venue: seq<Bar>, run: seq<Bar>, b: Bar)
    requires StrictlyAscending(venue) && AllFrom(run, venue) && b in run
    ensures Collected(run) != [] && Span(Collected(run)).Has(b.ts)
  {
    CollectedFacts(run, venue);
    hide Collected;
    AscendingSpan(Collected(run), b);
  }

  /**
   * The bars a journal flushed are all known after its recovery exactly when its run is accepted, or
   * they were all known already; a refused run makes nothing known.
   */
  lemma FlushedBarsResume(venue: seq<Bar>, e: M.Entry, run: seq<Bar>)
    requires StrictlyAscending(venue) && AllFrom(run, venue) && run != [] && M.Aligned(e)
    ensures Collected(run) != []
    ensures (forall b :: b in run ==> Known(RecoveredFrom(e, run), b.ts))
            <==> M.Accepts(e, ChunkOf(run).range) || forall b :: b in run ==> Known(e, b.ts)
    ensures !M.Accepts(e, ChunkOf(run).range) ==> RecoveredFrom(e, run) == e
  {
    assert run[0] in run;
    RunSpans(venue, run, run[0]);
    hide Collected, M.Inserted, M.Accepts;
    if M.Accepts(e, ChunkOf(run).range) {
      InsertedMembers(e, ChunkOf(run));
      forall b | b in run ensures Known(RecoveredFrom(e, run), b.ts) {
        RunSpans(venue, run, b);
      }
    }
  }

  /** Known bars are in no gap, so they are not downloaded again. */
  lemma KnownIsNotPlanned(e: M.Entry, window: Range, bar: int, b: Bar)
    requires bar > 0 && AllWellOrdered(e.ranges) && Known(e, b.ts)
    ensures !InGaps(Planned(e.ranges, window, bar), b.ts)
  {
    var r :| r in e.ranges && r.Has(b.ts);
    CachedIsNotPlanned(e.ranges, window, bar, r, b.ts);
  }

  // ---------------------------------------------------------------- journals in the place of their gap

  /** Nothing outside the gap, but for the bar that may close right after it. */
  ghost predicate InPlace(run: seq<Bar>, gap: Range, bar: int) {
    forall b :: b in run ==> gap.lo <= b.ts <= gap.hi + bar
  }

  /** Nothing recorded meets the gap, nor begins within a bar after it. */
  ghost predicate ClearAhead(e: M.Entry, gap: Range, bar: int) {
    forall r :: r in e.ranges ==> r.hi < gap.lo || gap.hi + bar <= r.lo
  }

  lemma RunLies(venue: seq<Bar>, run: seq<Bar>, gap: Range, bar: int)
    requires StrictlyAscending(venue) && AllFrom(run, venue) && InPlace(run, gap, bar) && Collected(run) != []
    ensures var span := Span(Collected(run)); gap.lo <= span.lo <= span.hi <= gap.hi + bar
  {
    CollectedFacts(run, venue);
    var bars := Collected(run);
    hide Collected;
    assert bars[0] in bars && bars[|bars| - 1] in bars;
    AscendingSpan(bars, bars[0]);
  }

  /** A journal in the place of a clear gap is always accepted, and keeps a valid series valid. */
  lemma InPlaceIsRecorded(venue: seq<Bar>, e: M.Entry, run: seq<Bar>, gap: Range, bar: int)
    requires StrictlyAscending(venue) && AllFrom(run, venue) && InPlace(run, gap, bar) && Collected(run) != []
    requires M.Aligned(e) && AllWellOrdered(e.ranges) && ClearAhead(e, gap, bar)
    ensures M.Accepts(e, ChunkOf(run).range) && !M.Clashes(e.ranges, ChunkOf(run).range)
    ensures M.Valid(e) ==> M.Valid(RecoveredFrom(e, run))
  {
    RunLies(venue, run, gap, bar);
    hide Collected, M.Inserted;
    if M.Valid(e) { RecoveryStaysValid(e, run); }
  }

  // ---------------------------------------------------------------- connectors that clip

  /** The connector journals only bars of the window it was asked for. */
  ghost predicate Clipped(fetch: (int, int) -> Fetch, bar: int) {
    forall lo, hi, b :: b in Flat(fetch(lo, hi).pages) ==> OpensWithin(b, bar, lo, hi)
  }

  /** Bars on one grid, at least two milliseconds wide: the shortest interval is a second. */
  ghost predicate Gridded(venue: seq<Bar>, bar: int, phase: int) {
    bar >= 2 * NANOS_PER_MILLI && VenueOnGrid(venue, bar, phase)
  }

  lemma NotBefore(x: int, y: int, bar: int, phase: int)
    requires bar > 0 && OnGrid(x, bar, phase) && OnGrid(y, bar, phase) && x < y + bar
    ensures x <= y
  {
    if y < x { GridApart(y, x, bar, phase); }
  }

  lemma WindowEdges(gap: Range, bar: int, ts: int)
    requires bar >= 2 * NANOS_PER_MILLI && ts >= bar
    requires FetchFrom(gap, bar) * NANOS_PER_MILLI <= ts - bar < FetchTo(gap) * NANOS_PER_MILLI
    ensures gap.lo < ts + bar && ts < gap.hi + bar + bar
  {
    var n := NANOS_PER_MILLI;
    assert FetchFrom(gap, bar) * n > Max(gap.lo - bar, 0) - n;
    TruncDivBounds(gap.hi, n);
  }

  /** On the grid, what a clipping connector journals is in the place of its gap. */
  lemma ClippedIsInPlace(venue: seq<Bar>, bar: int, phase: int, fetch: (int, int) -> Fetch, gap: Range, run: seq<Bar>)
    requires History(venue, bar) && Gridded(venue, bar, phase) && RangeOnGrid(gap, bar, phase) && Clipped(fetch, bar)
    requires AllFrom(run, venue) && forall b :: b in run ==> b in Flat(fetch(FetchFrom(gap, bar), FetchTo(gap)).pages)
    ensures InPlace(run, gap, bar)
  {
    hide OnGrid, FetchFrom, FetchTo, Flat;
    forall b | b in run ensures gap.lo <= b.ts <= gap.hi + bar {
      WindowEdges(gap, bar, b.ts);
      NotBefore(gap.lo, b.ts, bar, phase);
      GridNeighbours(gap.hi, bar, phase);
      NotBefore(b.ts, gap.hi + bar, bar, phase);
    }
  }

  /** On the grid, a clear gap is clear ahead. */
  lemma ClearIsClearAhead(e: M.Entry, gap: Range, bar: int, phase: int)
    requires bar > 0 && AllOnGrid(e.ranges, bar, phase) && RangeOnGrid(gap, bar, phase)
    requires AllWellOrdered(e.ranges) && gap.lo <= gap.hi && ClearOf(e, gap)
    ensures ClearAhead(e, gap, bar)
  {
    hide OnGrid;
    forall r | r in e.ranges ensures r.hi < gap.lo || gap.hi + bar <= r.lo {
      assert RangeOnGrid(r, bar, phase) && !gap.Meets(r);
      if gap.hi < r.lo { GridApart(gap.hi, r.lo, bar, phase); }
    }
  }

  // ---------------------------------------------------------------- tidy directories

  /** Validated, and on the grid. */
  ghost predicate ValidOnGrid(e: M.Entry, bar: int, phase: int)
    requires bar > 0
  {
    M.Valid(e) && AllOnGrid(e.ranges, bar, phase)
  }

  /** The saved series is regular, and the one journal there may be is in the place of a gap clear of it. */
  ghost predicate Tidy(key: M.Key, bar: int, phase: int, s: State)
    requires bar > 0
  {
    var e := M.Series(s.saved, key);
    && ValidOnGrid(e, bar, phase)
    && (forall g, h :: g in s.journals && h in s.journals ==> g == h)
    && (forall g :: g in s.journals ==> InPlace(s.journals[g], g, bar) && ClearAhead(e, g, bar))
  }

  /** What keeps it so: journal one clear gap at a time, in its place, and save what is regular and clear of it. */
  ghost predicate TidyAct(key: M.Key, bar: int, phase: int, s: State, a: Act)
    requires bar > 0
  {
    match a
    case StartJournal(gap) => (forall g :: g in s.journals ==> g == gap) && ClearAhead(M.Series(s.saved, key), gap, bar)
    case AppendJournal(gap, page) => InPlace(page, gap, bar)
    case Save =>
      s.working.Some? && ValidOnGrid(M.Series(s.working.value, key), bar, phase)
      && forall g :: g in s.journals ==> ClearAhead(M.Series(s.working.value, key), g, bar)
    case Open => true
    case DropJournal(_) => true
    case WriteChunk(_, _) => true
    case Record(_) => true
    case Crash => true
  }

  lemma TidyStep(venue: seq<Bar>, key: M.Key, bar: int, phase: int, s: State, a: Act)
    requires bar > 0 && Tidy(key, bar, phase, s) && Enabled(venue, key, s, a) && TidyAct(key, bar, phase, s, a)
    ensures Tidy(key, bar, phase, Performed(venue, key, s, a))
  {
    hide M.Series, M.Valid, OnGrid, Recorded, GapFree, Slice;
  }

  ghost predicate TidyRun(venue: seq<Bar>, key: M.Key, bar: int, phase: int, start: State, acts: seq<Act>)
    requires bar > 0
  {
    if acts == [] then
      Tidy(key, bar, phase, start)
    else
      var init := acts[..|acts| - 1];
      && TidyRun(venue, key, bar, phase, start, init)
      && Reached(venue, key, start, init).Some?
      && TidyAct(key, bar, phase, Reached(venue, key, start, init).value, acts[|acts| - 1])
  }

  lemma TidyExtends(venue: seq<Bar>, key: M.Key, bar: int, phase: int, start: State, acts: seq<Act>, a: Act)
    requires bar > 0 && TidyRun(venue, key, bar, phase, start, acts) && Reached(venue, key, start, acts).Some?
    requires TidyAct(key, bar, phase, Reached(venue, key, start, acts).value, a)
    ensures TidyRun(venue, key, bar, phase, start, acts + [a])
  {
    hide TidyAct, Tidy, Reached;
    assert (acts + [a])[..|acts|] == acts;
  }

  /** Every state on a tidy run is tidy, so its saved series is valid: after any load, abort or crash. */
  lemma {:induction false} TidyRunsStayValid(venue: seq<Bar>, key: M.Key, bar: int, phase: int, start: State, acts: seq<Act>)
    requires bar > 0 && TidyRun(venue, key, bar, phase, start, acts) && Reached(venue, key, start, acts).Some?
    ensures Tidy(key, bar, phase, Reached(venue, key, start, acts).value)
    ensures M.Valid(M.Series(Reached(venue, key, start, acts).value.saved, key))
  {
    if acts != [] {
      hide TidyAct, Tidy, Enabled, Performed;
      var init := acts[..|acts| - 1];
      TidyRunsStayValid(venue, key, bar, phase, start, init);
      TidyStep(venue, key, bar, phase, Reached(venue, key, start, init).value, acts[|acts| - 1]);
    }
    hide Reached;
    var s := Reached(venue, key, start, acts).value;
    assert Tidy(key, bar, phase, s) ==> M.Valid(M.Series(s.saved, key)) by { hide M.Series, M.Valid; }
  }

  /** What a journal in the place of a clear gap flushed is all known once it is recovered. */
  lemma InPlaceResumes(venue: seq<Bar>, e: M.Entry, run: seq<Bar>, gap: Range, bar: int)
    requires StrictlyAscending(venue) && AllFrom(run, venue) && InPlace(run, gap, bar)
    requires M.Aligned(e) && AllWellOrdered(e.ranges) && ClearAhead(e, gap, bar)
    ensures forall b :: b in run ==> Known(RecoveredFrom(e, run), b.ts)
  {
    hide Collected, RecoveredFrom, M.Accepts, AllWellOrdered;
    if run != [] {
      FlushedBarsResume(venue, e, run);
      InPlaceIsRecorded(venue, e, run, gap, bar);
    }
  }

  /** So with a tidy directory, whatever was flushed before the interruption is not downloaded again. */
  lemma TidyJournalResumes(venue: seq<Bar>, key: M.Key, bar: int, phase: int, s: State, gap: Range)
    requires History(venue, bar) && Safe(venue, key, s) && Tidy(key, bar, phase, s) && gap in s.journals
    ensures M.Aligned(M.Series(s.saved, key))
    ensures forall b :: b in s.journals[gap] ==> Known(RecoveredFrom(M.Series(s.saved, key), s.journals[gap]), b.ts)
  {
    hide M.Series, Slice, RecoveredFrom;
    var e, run := M.Series(s.saved, key), s.journals[gap];
    TrueRangesAreWellOrdered(venue, s.files, e);
    assert GapFree(run, venue);
    assert ClearAhead(e, gap, bar) && InPlace(run, gap, bar);
    InPlaceResumes(venue, e, run, gap, bar);
  }

  // ---------------------------------------------------------------- recovering regular series

  /** The recovery of a tidy journal leaves the series regular. */
  lemma TidyRecoveryIsRegular(venue: seq<Bar>, e: M.Entry, run: seq<Bar>, gap: Range, bar: int, phase: int)
    requires History(venue, bar) && VenueOnGrid(venue, bar, phase) && AllFrom(run, venue)
    requires InPlace(run, gap, bar) && ClearAhead(e, gap, bar) && AllWellOrdered(e.ranges) && ValidOnGrid(e, bar, phase)
    ensures ValidOnGrid(RecoveredFrom(e, run), bar, phase)
  {
    assert M.Aligned(e);
    hide OnGrid, M.Valid, M.Inserted, Collected;
    if Collected(run) != [] {
      InPlaceIsRecorded(venue, e, run, gap, bar);
      RunIsStamped(venue, run);
      InsertedMembers(e, ChunkOf(run));
      var span := ChunkOf(run).range;
      assert RangeOnGrid(span, bar, phase);
    }
  }

  lemma RunIsStamped(venue: seq<Bar>, run: seq<Bar>)
    requires StrictlyAscending(venue) && AllFrom(run, venue) && Collected(run) != []
    ensures Stamped(venue, Span(Collected(run)))
  {
    CollectedFacts(run, venue);
    hide Collected;
    SpanIsStamped(venue, Collected(run));
  }

  /** Adding on-grid pieces keeps the series on the grid. */
  lemma PiecesKeepGrid(venue: seq<Bar>, before: M.Entry, e: M.Entry, gap: Range, bars: seq<Bar>, cutoff: int, bar: int, phase: int)
    requires bar > 0 && VenueOnGrid(venue, bar, phase) && RangeOnGrid(gap, bar, phase) && OnGrid(cutoff, bar, phase)
    requires AllFrom(bars, venue) && AllOnGrid(before.ranges, bar, phase)
    requires Ranges(e) == Ranges(before) + RangesOf(Pieces(gap, bars, cutoff, bar))
    ensures AllOnGrid(e.ranges, bar, phase)
  {
    hide OnGrid, Pieces;
    forall r | r in e.ranges ensures RangeOnGrid(r, bar, phase) {
      assert r in Ranges(e);
      if r !in before.ranges {
        var c :| c in Pieces(gap, bars, cutoff, bar) && c.range == r;
        PieceOnGrid(venue, gap, bars, cutoff, bar, phase, c);
      }
    }
  }

  /** Everything the fetch of a gap flushed to its journal. */
  function Flushed(fetch: (int, int) -> Fetch, gap: Range, bar: int): seq<Bar> {
    Flat(fetch(FetchFrom(gap, bar), FetchTo(gap)).pages)
  }

  lemma {:induction false} PageIsFlushed(pages: seq<seq<Bar>>, i: nat)
    requires i < |pages|
    ensures forall b :: b in pages[i] ==> b in Flat(pages) && b in Flat(pages[..i + 1])
  {
    FlatStep(pages, i);
    if i == |pages| - 1 {
      assert pages[..i + 1] == pages;
    } else {
      var init := pages[..|pages| - 1];
      PageIsFlushed(init, i);
      assert init[i] == pages[i];
    }
  }

  lemma NothingFlat()
    ensures Flat([]) == []
  {
  }

  lemma KeptFromVenue(venue: seq<Bar>, bar: int, gap: Range, f: Fetch)
    requires History(venue, bar) && AllFrom(f.events, venue)
    ensures AllFrom(Kept(f, gap), venue)
  {
    KeptElements(venue, f, gap);
    hide Kept;
  }

  /** A page a clipping connector flushes is in the place of its gap. */
  lemma PageIsInPlace(venue: seq<Bar>, bar: int, phase: int, fetch: (int, int) -> Fetch, gap: Range, i: nat)
    requires History(venue, bar) && Gridded(venue, bar, phase) && RangeOnGrid(gap, bar, phase) && Clipped(fetch, bar)
    requires i < |fetch(FetchFrom(gap, bar), FetchTo(gap)).pages|
    requires GapFree(Flat(fetch(FetchFrom(gap, bar), FetchTo(gap)).pages[..i + 1]), venue)
    ensures InPlace(fetch(FetchFrom(gap, bar), FetchTo(gap)).pages[i], gap, bar)
  {
    hide OnGrid, FetchFrom, FetchTo, Flat;
    PageIsFlushed(fetch(FetchFrom(gap, bar), FetchTo(gap)).pages, i);
    ClippedIsInPlace(venue, bar, phase, fetch, gap, fetch(FetchFrom(gap, bar), FetchTo(gap)).pages[i]);
  }

  /** The gaps planned on the grid lie on it. */
  lemma PlannedGapsOnGrid(ranges: seq<Range>, window: Range, bar: int, phase: int)
    requires bar > 0 && AllOnGrid(ranges, bar, phase) && RangeOnGrid(window, bar, phase)
    ensures forall g :: g in Planned(ranges, window, bar) ==> g.lo <= g.hi && RangeOnGrid(g, bar, phase)
  {
    HolesAreExact(ranges, window, bar);
    PlannedOnGrid(ranges, window, bar, phase);
    hide Planned, OnGrid;
  }

  /** One more journal recovered. */
  lemma RecoveredOneMore(e: M.Entry, journals: map<Range, seq<Bar>>, order: seq<Range>, gap: Range)
    requires M.Aligned(e) && gap in journals
    ensures RecoveredAll(e, RunsOf(journals, order + [gap])) == RecoveredFrom(RecoveredAll(e, RunsOf(journals, order)), journals[gap])
  {
    hide RecoveredFrom;
    var runs := RunsOf(journals, order + [gap]);
    assert runs[..|runs| - 1] == RunsOf(journals, order);
  }

  lemma {:induction false} TidyPrefix(venue: seq<Bar>, key: M.Key, bar: int, phase: int, start: State, acts: seq<Act>, k: nat)
    requires bar > 0 && TidyRun(venue, key, bar, phase, start, acts) && Reached(venue, key, start, acts).Some? && k <= |acts|
    ensures TidyRun(venue, key, bar, phase, start, acts[..k]) && Reached(venue, key, start, acts[..k]).Some?
    decreases |acts|
  {
    hide Tidy, TidyAct, Enabled, Performed;
    if k == |acts| {
      assert acts[..k] == acts;
    } else {
      var init := acts[..|acts| - 1];
      TidyPrefix(venue, key, bar, phase, start, init, k);
      assert init[..k] == acts[..k];
    }
  }

  /** The aborted fetch of the gap left its journal, with everything flushed, and no other. */
  ghost predicate LeftBehind(fetch: (int, int) -> Fetch, gap: Range, bar: int, journals: map<Range, seq<Bar>>) {
    fetch(FetchFrom(gap, bar), FetchTo(gap)).aborted && journals == map[gap := Flushed(fetch, gap, bar)]
  }

  /** Some journals have been recovered in this order, and the others are as found. */
  ghost predicate Remaining(order: seq<Range>, found: map<Range, seq<Bar>>, journals: map<Range, seq<Bar>>) {
    && (forall i, j :: 0 <= i < j < |order| ==> order[i] != order[j])
    && (forall g :: g in found <==> g in order || g in journals)
    && (forall g :: g in journals ==> g !in order && found[g] == journals[g])
  }

  /** The series e is the one before with the journals in `order` recovered. */
  ghost predicate Recovering(venue: seq<Bar>, before: M.Entry, found: map<Range, seq<Bar>>, order: seq<Range>,
                             journals: map<Range, seq<Bar>>, e: M.Entry) {
    && M.Aligned(before) && e == RecoveredAll(before, RunsOf(found, order))
    && Remaining(order, found, journals) && Recovered(venue, before, e)
  }

  lemma RecoveringStarts(venue: seq<Bar>, before: M.Entry, found: map<Range, seq<Bar>>)
    requires M.Aligned(before)
    ensures Recovering(venue, before, found, [], found, before)
  {
    RecoveredItself(venue, before);
    assert RunsOf(found, []) == [];
  }

  lemma RecoveringStep(venue: seq<Bar>, before: M.Entry, found: map<Range, seq<Bar>>, order: seq<Range>,
                       journals: map<Range, seq<Bar>>, mid: M.Entry, gap: Range, e: M.Entry)
    requires Recovering(venue, before, found, order, journals, mid) && gap in journals && M.Aligned(mid)
    requires e == RecoveredFrom(mid, journals[gap]) && Recovered(venue, mid, e)
    ensures Recovering(venue, before, found, order + [gap], journals - {gap}, e)
  {
    assert found[gap] == journals[gap] && gap in found;
    RecoveredOneMore(before, found, order, gap);
    RecoveredTwice(venue, before, mid, e);
    RemainingStep(order, found, journals, gap);
    hide Remaining, Recovered, RecoveredAll, RecoveredFrom, RunsOf;
  }

  lemma RemainingStep(order: seq<Range>, found: map<Range, seq<Bar>>, journals: map<Range, seq<Bar>>, gap: Range)
    requires Remaining(order, found, journals) && gap in journals
    ensures Remaining(order + [gap], found, journals - {gap})
  {
    var more := order + [gap];
    forall i, j | 0 <= i < j < |more| ensures more[i] != more[j] {
      assert i < |order| ==> more[i] in order;
    }
  }

  lemma RecoveringEnds(venue: seq<Bar>, before: M.Entry, found: map<Range, seq<Bar>>, order: seq<Range>, e: M.Entry)
    requires Recovering(venue, before, found, order, map[], e)
    ensures Lists(order, found) && M.Aligned(before) && e == RecoveredAll(before, RunsOf(found, order)) && Recovered(venue, before, e)
  {
    hide RecoveredAll, Recovered, RunsOf;
  }

  lemma RecoveredTwice(venue: seq<Bar>, before: M.Entry, mid: M.Entry, e: M.Entry)
    requires Recovered(venue, before, mid) && Recovered(venue, mid, e)
    ensures Recovered(venue, before, e)
  {
  }

  /**
   * The series `before` is the one found with all journals found recovered in this order; it is as
   * valid as the journals were harmless.
   */
  ghost predicate Resumed(found: M.Entry, journals: map<Range, seq<Bar>>, order: seq<Range>, before: M.Entry) {
    && Lists(order, journals) && M.Aligned(found)
    && before == RecoveredAll(found, RunsOf(journals, order))
    && (M.Valid(found) ==> (M.Valid(before) <==> AllHarmless(found, RunsOf(journals, order))))
  }

  lemma ResumedFrom(found: M.Entry, journals: map<Range, seq<Bar>>, order: seq<Range>, before: M.Entry)
    requires Lists(order, journals) && M.Aligned(found) && AllWellOrdered(found.ranges)
    requires before == RecoveredAll(found, RunsOf(journals, order))
    ensures Resumed(found, journals, order, before)
  {
    hide RecoveredAll, M.Valid, AllHarmless, AllWellOrdered;
    if M.Valid(found) { AllRecoveryStaysValid(found, RunsOf(journals, order)); }
  }

  // ---------------------------------------------------------------- journals that spoil a series

  /** A series holding the one stamp x, which is valid. */
  function PointSeries(key: M.Key, x: int): M.Entry {
    var r := Range(x, x);
    M.Entry(key, [M.ChunkFile(r)], [r], [M.Bars], x)
  }

  function Dot(ts: int): Bar {
    Bar(0, ts, 1, 1, 1, 1, 1)
  }

  /** Bars closing at x, y and z; y alone recorded; a journal left behind with all three. */
  ghost function StraddlingState(key: M.Key, gap: Range, x: int, y: int, z: int): State {
    State(map[Range(y, y) := [Dot(y)]], map[gap := [Dot(x), Dot(y), Dot(z)]], [PointSeries(key, y)], None)
  }

  lemma StraddledSlices(x: int, y: int, z: int)
    requires x < y < z
    ensures var venue := [Dot(x), Dot(y), Dot(z)];
            StrictlyAscending(venue) && Slice(venue, Range(y, y)) == [Dot(y)] && Slice(venue, Range(x, z)) == venue
  {
    var venue := [Dot(x), Dot(y), Dot(z)];
    SliceFacts(venue, Range(y, y));
    SliceFacts(venue, Range(x, z));
    hide Slice;
    assert Dot(x) in venue && Dot(y) in venue && Dot(z) in venue;
    AscendingIsUnique(Slice(venue, Range(x, z)), venue);
    OneBar(Slice(venue, Range(y, y)), Dot(y));
  }

  lemma StraddledRun(x: int, y: int, z: int)
    requires x < y < z
    ensures var venue := [Dot(x), Dot(y), Dot(z)]; GapFree(venue, venue) && Collected(venue) == venue
  {
    var venue := [Dot(x), Dot(y), Dot(z)];
    CollectedFacts(venue, venue);
    hide Collected;
    AscendingIsUnique(Collected(venue), venue);
  }

  lemma OneBar(s: seq<Bar>, b: Bar)
    requires StrictlyAscending(s) && forall c :: c in s <==> c == b
    ensures s == [b]
  {
    AscendingIsUnique(s, [b]);
  }

  /** The operations of a load that finds it: open, write, record, drop, save. */
  function RecoveringActs(gap: Range, run: seq<Bar>): seq<Act>
    requires Collected(run) != []
  {
    [Act.Open, WriteChunk(ChunkOf(run).range, Collected(run)), Record(ChunkOf(run)), DropJournal(gap), Act.Save]
  }

  lemma PointIsTrue(key: M.Key, venue: seq<Bar>, files: map<Range, seq<Bar>>, x: int)
    requires Range(x, x) in files
    ensures EntryTrue(venue, files, PointSeries(key, x)) && M.Valid(PointSeries(key, x)) && AllWellOrdered(PointSeries(key, x).ranges)
    ensures M.Series([PointSeries(key, x)], key) == PointSeries(key, x)
  {
    var e, c := PointSeries(key, x), M.Chunk(M.ChunkFile(Range(x, x)), Range(x, x), M.Bars);
    assert M.Chunks(e) == [c];
    assert M.Find([e], key) == 0;
  }

  lemma StraddledIsSafe(key: M.Key, gap: Range, x: int, y: int, z: int)
    requires x < y < z
    ensures Safe([Dot(x), Dot(y), Dot(z)], key, StraddlingState(key, gap, x, y, z))
    ensures M.Series(StraddlingState(key, gap, x, y, z).saved, key) == PointSeries(key, y)
  {
    StraddledSlices(x, y, z);
    StraddledRun(x, y, z);
    hide Slice, M.Series, EntryTrue, GapFree, PointSeries;
    PointIsTrue(key, [Dot(x), Dot(y), Dot(z)], StraddlingState(key, gap, x, y, z).files, y);
  }

  lemma SpanSpoilsPoint(key: M.Key, x: int, y: int, z: int)
    requires x < y < z
    ensures var e := PointSeries(key, y);
            M.Aligned(e) && M.Valid(e) && M.Accepts(e, Range(x, z)) && M.Clashes(e.ranges, Range(x, z)) && AllWellOrdered(e.ranges)
  {
    var e := PointSeries(key, y);
    assert e.ranges[0] in e.ranges && M.PointClash(Range(x, z), e.ranges[0]);
  }

  /** One load records the stamp y; the next journals a page around it and dies. */
  function StraddlingActs(gap: Range, x: int, y: int, z: int): seq<Act> {
    var r := Range(y, y);
    [Act.Open, WriteChunk(r, [Dot(y)]), Record(M.Chunk(M.ChunkFile(r), r, M.Bars)), Act.Save,
     StartJournal(gap), AppendJournal(gap, [Dot(x), Dot(y), Dot(z)]), Act.Crash]
  }

  lemma PointIsRecorded(key: M.Key, y: int)
    requires y >= 0
    ensures M.Aligned(M.Series([], key))
    ensures Recorded([], key, M.Chunk(M.ChunkFile(Range(y, y)), Range(y, y), M.Bars)) == [PointSeries(key, y)]
  {
    var e, r := M.NewSeries(key), Range(y, y);
    var c := M.Chunk(M.ChunkFile(r), r, M.Bars);
    assert M.Series([], key) == e && M.InsertionPoint([], y) == 0;
    assert M.Inserted(e, c) == PointSeries(key, y);
    assert M.Updated([], PointSeries(key, y)) == [PointSeries(key, y)];
  }

  lemma StraddlingIsReached(key: M.Key, gap: Range, x: int, y: int, z: int)
    requires 0 <= x < y < z
    ensures Reached([Dot(x), Dot(y), Dot(z)], key, EMPTY_CACHE, StraddlingActs(gap, x, y, z)) == Some(StraddlingState(key, gap, x, y, z))
  {
    var venue, r, page := [Dot(x), Dot(y), Dot(z)], Range(y, y), [Dot(x), Dot(y), Dot(z)];
    var c := M.Chunk(M.ChunkFile(r), r, M.Bars);
    StraddledSlices(x, y, z);
    StraddledRun(x, y, z);
    PointIsRecorded(key, y);
    hide Slice, GapFree, Recorded, M.Series, PointSeries;
    var s0 := State(map[], map[], [], Some([]));
    var s1 := s0.(files := map[r := [Dot(y)]]);
    var s2 := s1.(working := Some([PointSeries(key, y)]));
    var s3 := s2.(saved := [PointSeries(key, y)]);
    var s4 := s3.(journals := map[gap := []]);
    var s5 := s4.(journals := map[gap := page]);
    assert [] + page == page;
    assert Goes(venue, key, EMPTY_CACHE, Act.Open, s0) && Goes(venue, key, s0, WriteChunk(r, [Dot(y)]), s1);
    assert Goes(venue, key, s1, Record(c), s2) && Goes(venue, key, s2, Act.Save, s3) && Goes(venue, key, s3, StartJournal(gap), s4);
    assert Goes(venue, key, s4, AppendJournal(gap, page), s5) && Goes(venue, key, s5, Act.Crash, s5.(working := None));
    hide Goes;
    RunsFive(venue, key, EMPTY_CACHE, Act.Open, WriteChunk(r, [Dot(y)]), Record(c), Act.Save, StartJournal(gap), s0, s1, s2, s3, s4);
    var five := [Act.Open, WriteChunk(r, [Dot(y)]), Record(c), Act.Save, StartJournal(gap)];
    RunsOn(venue, key, EMPTY_CACHE, five, AppendJournal(gap, page), s4, s5);
    RunsOn(venue, key, EMPTY_CACHE, five + [AppendJournal(gap, page)], Act.Crash, s5, s5.(working := None));
    assert five + [AppendJournal(gap, page)] + [Act.Crash] == StraddlingActs(gap, x, y, z);
  }

  /**
   * Recovery can spoil a valid series. From an empty directory, a load of one stamp and then, for a
   * gap beside it, a connector that journals a page reaching below the gap before the process dies,
   * leave a run around that stamp: safe to recover, accepted, and no longer valid.
   */
  lemma StraddlingJournalSpoils(key: M.Key, gap: Range, bar: int, x: int, y: int, z: int)
    requires 0 < bar <= x < y < z
    ensures var venue, s := [Dot(x), Dot(y), Dot(z)], StraddlingState(key, gap, x, y, z);
            var e := M.Series(s.saved, key);
            && History(venue, bar) && Safe(venue, key, s) && M.Valid(e)
            && Reached(venue, key, EMPTY_CACHE, StraddlingActs(gap, x, y, z)) == Some(s)
            && M.Aligned(e) && M.Accepts(e, Range(x, z)) && !M.Valid(RecoveredFrom(e, s.journals[gap]))
  {
    var venue := [Dot(x), Dot(y), Dot(z)];
    StraddlingIsReached(key, gap, x, y, z);
    StraddledSlices(x, y, z);
    StraddledRun(x, y, z);
    StraddledIsSafe(key, gap, x, y, z);
    SpanSpoilsPoint(key, x, y, z);
    hide Slice, Collected, M.Series, M.Valid, M.Accepts, M.Clashes, PointSeries, Safe, M.Inserted;
    assert ChunkOf(venue).range == Range(x, z);
    RecoveryStaysValid(PointSeries(key, y), venue);
  }

  /** Interrupted between dropping the journal and saving the manifest, recovery forgets what was flushed. */
  lemma CrashForgetsJournal(venue: seq<Bar>, key: M.Key, bar: int, s: State, gap: Range)
    requires History(venue, bar) && Safe(venue, key, s) && gap in s.journals && Collected(s.journals[gap]) != []
    ensures var acts := RecoveringActs(gap, s.journals[gap])[..4] + [Act.Crash];
            var t := Reached(venue, key, s, acts);
            t.Some? && t.value.saved == s.saved && gap !in t.value.journals
  {
    var run := s.journals[gap];
    assert GapFree(run, venue);
    RunIsSlice(venue, bar, run);
    var span, bars, c := ChunkOf(run).range, Collected(run), ChunkOf(run);
    hide Slice, Collected, M.Series, EntryTrue, FilesTrue;
    var s0 := s.(working := Some(s.saved));
    var s1 := s0.(files := s.files[span := bars]);
    assert EntryTrue(venue, s.files, M.Series(s.saved, key));
    assert M.Aligned(M.Series(s.saved, key)) by { AlignedWhenTrue(venue, s.files, M.Series(s.saved, key)); }
    assert ChunkTrue(venue, s1.files, c);
    var s2 := s1.(working := Some(Recorded(s.saved, key, c)));
    var s3 := s2.(journals := s.journals - {gap});
    hide Recorded, ChunkTrue;
    RunsFive(venue, key, s, Act.Open, WriteChunk(span, bars), Record(c), DropJournal(gap), Act.Crash, s0, s1, s2, s3, s3.(working := None));
    assert RecoveringActs(gap, run)[..4] + [Act.Crash] == [Act.Open, WriteChunk(span, bars), Record(c), DropJournal(gap), Act.Crash];
  }

  lemma AlignedWhenTrue(venue: seq<Bar>, files: map<Range, seq<Bar>>, e: M.Entry)
    requires EntryTrue(venue, files, e)
    ensures M.Aligned(e)
  {
  }

  ghost predicate Goes(venue: seq<Bar>, key: M.Key, s: State, a: Act, t: State) {
    Enabled(venue, key, s, a) && Performed(venue, key, s, a) == t
  }

  lemma RunsFive(venue: seq<Bar>, key: M.Key, s: State, a: Act, b: Act, c: Act, d: Act, e: Act,
                 s0: State, s1: State, s2: State, s3: State, s4: State)
    requires Goes(venue, key, s, a, s0) && Goes(venue, key, s0, b, s1) && Goes(venue, key, s1, c, s2)
    requires Goes(venue, key, s2, d, s3) && Goes(venue, key, s3, e, s4)
    ensures Reached(venue, key, s, [a, b, c, d, e]) == Some(s4)
  {
    hide Goes;
    assert Reached(venue, key, s, []) == Some(s);
    hide Reached;
    assert [] + [a] == [a] && [a] + [b] == [a, b] && [a, b] + [c] == [a, b, c] && [a, b, c] + [d] == [a, b, c, d];
    assert [a, b, c, d] + [e] == [a, b, c, d, e];
    RunsOn(venue, key, s, [], a, s, s0);
    RunsOn(venue, key, s, [a], b, s0, s1);
    RunsOn(venue, key, s, [a, b], c, s1, s2);
    RunsOn(venue, key, s, [a, b, c], d, s2, s3);
    RunsOn(venue, key, s, [a, b, c, d], e, s3, s4);
  }

  lemma RunsOn(venue: seq<Bar>, key: M.Key, s: State, acts: seq<Act>, a: Act, t: State, u: State)
    requires Reached(venue, key, s, acts) == Some(t) && Goes(venue, key, t, a, u)
    ensures Reached(venue, key, s, acts + [a]) == Some(u)
  {
    hide Enabled, Performed, Reached;
    ReachedExtends(venue, key, s, acts, a);
  }
}
