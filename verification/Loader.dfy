/**
 * What loading a window does to a series' cache, gap by gap: which bars a fetch keeps, how they are
 * split into chunks and verified holes, and what that makes of planning and assembling. Module
 * CacheLoader performs it in place.
 */
module Loader {
  import opened Prelude
  import opened Trading
  import opened Gap
  import opened BarSets
  import opened CacheProtocol
  import M = Manifest

  const NANOS_PER_MILLI := 1_000_000

  // ---------------------------------------------------------------- what a venue answers

  /** The batches the journal flushed, the bars the feed yielded, and whether it gave up mid-stream. */
  datatype Fetch = Fetch(pages: seq<seq<Bar>>, events: seq<Bar>, aborted: bool)

  function Flat(pages: seq<seq<Bar>>): seq<Bar> {
    if pages == [] then [] else Flat(pages[..|pages| - 1]) + pages[|pages| - 1]
  }

  /** The bar opens inside the millisecond window, which excludes its end. */
  predicate OpensWithin(b: Bar, bar: int, loMs: int, hiMs: int) {
    loMs * NANOS_PER_MILLI <= b.ts - bar < hiMs * NANOS_PER_MILLI
  }

  /** Every settled bar of the window, and with any bar also every older one. */
  ghost predicate Complete(venue: seq<Bar>, bar: int, cutoff: int, loMs: int, hiMs: int, events: seq<Bar>) {
    && AllFrom(events, venue)
    && (forall b :: b in venue && OpensWithin(b, bar, loMs, hiMs) && b.ts <= cutoff ==> b in events)
    && (forall b, c :: b in venue && OpensWithin(b, bar, loMs, hiMs) && c in events && b.ts <= c.ts ==> b in events)
  }

  /** Gaps are in close stamps; a connector's window is in open time. */
  function FetchFrom(gap: Range, bar: int): int {
    Max(gap.lo - bar, 0) / NANOS_PER_MILLI
  }

  function FetchTo(gap: Range): int {
    TruncDiv(gap.hi, NANOS_PER_MILLI) + 1
  }

  /** No bar at either edge of a gap falls outside the window asked of the connector. */
  lemma WindowCoversGap(gap: Range, bar: int, b: Bar)
    requires bar > 0 && b.ts >= bar && gap.Has(b.ts)
    ensures OpensWithin(b, bar, FetchFrom(gap, bar), FetchTo(gap))
  {
  }

  /** What the loader keeps of a fetch: sorted, one bar per stamp, clipped to the gap. */
  function Kept(f: Fetch, gap: Range): seq<Bar> {
    Filter(Collected(f.events), Within(gap))
  }

  function Span(bars: seq<Bar>): Range
    requires bars != []
  {
    Range(bars[0].ts, bars[|bars| - 1].ts)
  }

  function Lead(gap: Range, span: Range, bar: int): Range {
    Range(gap.lo, span.lo - bar)
  }

  function Trail(gap: Range, span: Range, cutoff: int, bar: int): Range {
    Range(span.hi + bar, Min(gap.hi, cutoff))
  }

  /** The chunks recorded for a gap: the bars, and the settled holes before and after them. */
  function Pieces(gap: Range, bars: seq<Bar>, cutoff: int, bar: int): seq<M.Chunk> {
    if bars == [] then
      []
    else
      var span := Span(bars);
      var lead, trail := Lead(gap, span, bar), Trail(gap, span, cutoff, bar);
      [M.Chunk(M.ChunkFile(span), span, M.Bars)]
      + (if lead.hi >= lead.lo then [M.Chunk(M.NoFile, lead, M.EmptyVerified)] else [])
      + (if trail.hi >= trail.lo then [M.Chunk(M.NoFile, trail, M.EmptyVerified)] else [])
  }

  /** The bars kept of a gap are all the venue has between the first and the last, and around them. */
  ghost predicate Truthful(venue: seq<Bar>, gap: Range, bars: seq<Bar>, cutoff: int, bar: int) {
    bars != [] ==>
      var span := Span(bars);
      && gap.lo <= span.lo <= span.hi <= gap.hi
      && bars == Slice(venue, span)
      && Slice(venue, Lead(gap, span, bar)) == []
      && Slice(venue, Trail(gap, span, cutoff, bar)) == []
  }

  lemma KeptElements(venue: seq<Bar>, f: Fetch, gap: Range)
    requires StrictlyAscending(venue) && AllFrom(f.events, venue)
    ensures StrictlyAscending(Kept(f, gap))
    ensures forall b :: b in Kept(f, gap) <==> b in f.events && gap.Has(b.ts)
  {
    CollectedFacts(f.events, venue);
    FilterFacts(Collected(f.events), Within(gap));
    hide Collected, Filter;
  }

  lemma AscendingSpan(bars: seq<Bar>, b: Bar)
    requires StrictlyAscending(bars) && b in bars
    ensures Span(bars).Has(b.ts) && bars[0] in bars && bars[|bars| - 1] in bars
  {
  }

  lemma EmptySlice(venue: seq<Bar>, r: Range)
    requires forall b :: b in venue ==> !r.Has(b.ts)
    ensures Slice(venue, r) == []
  {
    SliceFacts(venue, r);
    SomeMember(Slice(venue, r));
    hide Slice;
  }

  /**
   * The fetch of a gap that came to its end. Connectors report some failures as an empty feed, so
   * what comes back may hold nothing of the gap; but if it does, it is complete.
   */
  ghost predicate Answered(venue: seq<Bar>, bar: int, cutoff: int, gap: Range, f: Fetch) {
    && AllFrom(f.events, venue)
    && (Kept(f, gap) != [] ==> Complete(venue, bar, cutoff, FetchFrom(gap, bar), FetchTo(gap), f.events))
  }

  /** The journal always holds a gap-free run, and a fetch that was not aborted answers. */
  ghost predicate Lawful(venue: seq<Bar>, bar: int, cutoff: int, gap: Range, f: Fetch) {
    && (forall k :: 0 <= k <= |f.pages| ==> GapFree(Flat(f.pages[..k]), venue))
    && (!f.aborted ==> Answered(venue, bar, cutoff, gap, f))
  }

  /** A completed fetch keeps every settled bar of the gap. */
  lemma KeptIsComplete(venue: seq<Bar>, bar: int, cutoff: int, gap: Range, f: Fetch, b: Bar)
    requires History(venue, bar) && Complete(venue, bar, cutoff, FetchFrom(gap, bar), FetchTo(gap), f.events)
    requires b in venue && gap.Has(b.ts) && (b.ts <= cutoff || exists c :: c in Kept(f, gap) && b.ts <= c.ts)
    ensures b in Kept(f, gap)
  {
    KeptElements(venue, f, gap);
    hide Kept;
    WindowCoversGap(gap, bar, b);
  }

  lemma KeptIsSlice(venue: seq<Bar>, bar: int, cutoff: int, gap: Range, f: Fetch)
    requires History(venue, bar) && Complete(venue, bar, cutoff, FetchFrom(gap, bar), FetchTo(gap), f.events)
    requires Kept(f, gap) != []
    ensures Kept(f, gap) == Slice(venue, Span(Kept(f, gap)))
    ensures gap.lo <= Span(Kept(f, gap)).lo <= Span(Kept(f, gap)).hi <= gap.hi
  {
    KeptElements(venue, f, gap);
    var bars := Kept(f, gap);
    var span := Span(bars);
    hide Kept, Slice, Complete, FetchFrom, FetchTo;
    AscendingSpan(bars, bars[|bars| - 1]);
    SliceFacts(venue, span);
    forall b ensures b in bars <==> b in Slice(venue, span) {
      if b in bars { AscendingSpan(bars, b); }
      if b in Slice(venue, span) { KeptIsComplete(venue, bar, cutoff, gap, f, b); }
    }
    AscendingIsUnique(bars, Slice(venue, span));
  }

  lemma KeptIsTruthful(venue: seq<Bar>, bar: int, cutoff: int, gap: Range, f: Fetch)
    requires History(venue, bar) && Answered(venue, bar, cutoff, gap, f)
    ensures Truthful(venue, gap, Kept(f, gap), cutoff, bar)
  {
    var bars := Kept(f, gap);
    if bars != [] {
      KeptElements(venue, f, gap);
      hide Kept, Slice, Complete, FetchFrom, FetchTo;
      KeptIsSlice(venue, bar, cutoff, gap, f);
      var span := Span(bars);
      forall b | b in venue ensures !Lead(gap, span, bar).Has(b.ts) && !Trail(gap, span, cutoff, bar).Has(b.ts) {
        NothingAround(venue, bar, cutoff, gap, f, b);
      }
      EmptySlice(venue, Lead(gap, span, bar));
      EmptySlice(venue, Trail(gap, span, cutoff, bar));
    }
  }

  lemma NothingAround(venue: seq<Bar>, bar: int, cutoff: int, gap: Range, f: Fetch, b: Bar)
    requires History(venue, bar) && Complete(venue, bar, cutoff, FetchFrom(gap, bar), FetchTo(gap), f.events)
    requires Kept(f, gap) != [] && b in venue && StrictlyAscending(Kept(f, gap))
    ensures var span := Span(Kept(f, gap)); !Lead(gap, span, bar).Has(b.ts) && !Trail(gap, span, cutoff, bar).Has(b.ts)
  {
    KeptElements(venue, f, gap);
    var bars := Kept(f, gap);
    hide Kept, Complete;
    assert bars[0] in bars && bars[|bars| - 1] in bars;
    if gap.Has(b.ts) && (b.ts <= cutoff || b.ts <= bars[0].ts) {
      KeptIsComplete(venue, bar, cutoff, gap, f, b);
      AscendingSpan(bars, b);
    }
  }

  // ---------------------------------------------------------------- reading back

  /** The bars of every chunk file whose range meets the window, in chunk order. */
  function Read(files: map<Range, seq<Bar>>, chunks: seq<M.Chunk>, window: Range): seq<Bar> {
    if chunks == [] then []
    else
      var c := chunks[|chunks| - 1];
      Read(files, chunks[..|chunks| - 1], window)
      + (if c.coverage.Bars? && c.range.Meets(window) && c.range in files then files[c.range] else [])
  }

  function Assembled(files: map<Range, seq<Bar>>, e: M.Entry, window: Range): seq<Bar>
    requires M.Aligned(e)
  {
    Filter(Collected(Read(files, M.Chunks(e), window)), Within(window))
  }

  lemma {:induction false} ReadElements(venue: seq<Bar>, files: map<Range, seq<Bar>>, chunks: seq<M.Chunk>, window: Range, b: Bar)
    requires FilesTrue(venue, files) && forall c :: c in chunks ==> ChunkTrue(venue, files, c)
    ensures b in Read(files, chunks, window)
            <==> b in venue && exists c :: c in chunks && c.coverage.Bars? && c.range.Meets(window) && c.range.Has(b.ts)
  {
    if chunks != [] {
      hide Slice;
      var init, c := chunks[..|chunks| - 1], chunks[|chunks| - 1];
      assert chunks == init + [c];
      ReadElements(venue, files, init, window, b);
      assert ChunkTrue(venue, files, c);
      SliceFacts(venue, c.range);
    }
  }

  lemma RangeOfChunk(e: M.Entry, c: M.Chunk)
    requires M.Aligned(e) && c in M.Chunks(e)
    ensures c.range in e.ranges
  {
  }

  lemma ChunkOfRange(e: M.Entry, r: Range) returns (c: M.Chunk)
    requires M.Aligned(e) && r in e.ranges
    ensures c in M.Chunks(e) && c.range == r
  {
    var i :| 0 <= i < |e.ranges| && e.ranges[i] == r;
    c := M.Chunks(e)[i];
  }

  /** A bar of a recorded range is in the chunk's file: its chunk is not one of verified emptiness. */
  lemma RecordedBarIsRead(venue: seq<Bar>, files: map<Range, seq<Bar>>, e: M.Entry, window: Range, b: Bar)
    requires FilesTrue(venue, files) && EntryTrue(venue, files, e) && b in venue && window.Has(b.ts)
    ensures b in Read(files, M.Chunks(e), window) <==> Known(e, b.ts)
  {
    hide Slice, Read, M.Chunks;
    ReadElements(venue, files, M.Chunks(e), window, b);
    if Known(e, b.ts) {
      var r :| r in e.ranges && r.Has(b.ts);
      var c := ChunkOfRange(e, r);
      assert ChunkTrue(venue, files, c);
      SliceFacts(venue, r);
      assert c.range.Meets(window);
    }
    if b in Read(files, M.Chunks(e), window) {
      var c :| c in M.Chunks(e) && c.coverage.Bars? && c.range.Meets(window) && c.range.Has(b.ts);
      RangeOfChunk(e, c);
    }
  }

  lemma ReadIsFromVenue(venue: seq<Bar>, files: map<Range, seq<Bar>>, e: M.Entry, window: Range)
    requires FilesTrue(venue, files) && EntryTrue(venue, files, e)
    ensures AllFrom(Read(files, M.Chunks(e), window), venue)
  {
    hide Slice, Read, M.Chunks;
    forall b | b in Read(files, M.Chunks(e), window) ensures b in venue {
      ReadElements(venue, files, M.Chunks(e), window, b);
    }
  }

  /**
   * No data is hidden: what is assembled is, strictly ascending and without duplicates, exactly
   * the venue's bars of the window that lie in recorded ranges.
   */
  lemma AssembledIsVisible(venue: seq<Bar>, bar: int, files: map<Range, seq<Bar>>, e: M.Entry, window: Range)
    requires History(venue, bar) && FilesTrue(venue, files) && EntryTrue(venue, files, e)
    ensures Assembled(files, e, window) == Visible(venue, e, window)
  {
    hide Slice, Read, M.Chunks, ChunkTrue, Collected;
    var read := Read(files, M.Chunks(e), window);
    ReadIsFromVenue(venue, files, e, window);
    CollectedFacts(read, venue);
    FilterFacts(Collected(read), Within(window));
    FilterFacts(venue, (b: Bar) => window.Has(b.ts) && Known(e, b.ts));
    VisibleElements(venue, e, window);
    hide Filter;
    forall b ensures b in Assembled(files, e, window) <==> b in Visible(venue, e, window) {
      if b in venue && window.Has(b.ts) { RecordedBarIsRead(venue, files, e, window, b); }
    }
    AscendingIsUnique(Assembled(files, e, window), Visible(venue, e, window));
  }

  lemma VisibleElements(venue: seq<Bar>, e: M.Entry, window: Range)
    ensures forall b :: b in Visible(venue, e, window) <==> b in venue && window.Has(b.ts) && Known(e, b.ts)
    ensures StrictlyAscending(venue) ==> StrictlyAscending(Visible(venue, e, window))
  {
    FilterFacts(venue, (b: Bar) => window.Has(b.ts) && Known(e, b.ts));
  }

  const EMPTY_CACHE := State(map[], map[], [], None)

  /**
   * From an empty directory, over any run of loads, aborted fetches and crashes, what is assembled
   * from the saved manifest and the files is exactly the recorded part of the venue's history.
   */
  lemma NothingRecordedIsLost(venue: seq<Bar>, bar: int, key: M.Key, acts: seq<Act>, window: Range)
    requires History(venue, bar) && Reached(venue, key, EMPTY_CACHE, acts).Some?
    ensures var s := Reached(venue, key, EMPTY_CACHE, acts).value;
            var e := M.Series(s.saved, key);
            M.Aligned(e) && Assembled(s.files, e, window) == Visible(venue, e, window)
  {
    assert Safe(venue, key, EMPTY_CACHE);
    EveryReachedStateIsSafe(venue, key, EMPTY_CACHE, acts);
    var s := Reached(venue, key, EMPTY_CACHE, acts).value;
    hide Reached, Assembled, Visible, M.Series;
    AssembledIsVisible(venue, bar, s.files, M.Series(s.saved, key), window);
  }

  // ---------------------------------------------------------------- recording a gap

  ghost function Ranges(e: M.Entry): set<Range> {
    set r | r in e.ranges
  }

  /** No recorded range shares a stamp with the gap. */
  ghost predicate ClearOf(e: M.Entry, gap: Range) {
    forall r :: r in e.ranges ==> !gap.Meets(r)
  }

  lemma TrueRangesAreWellOrdered(venue: seq<Bar>, files: map<Range, seq<Bar>>, e: M.Entry)
    requires EntryTrue(venue, files, e)
    ensures AllWellOrdered(e.ranges)
  {
    hide Slice, M.Chunks;
    forall r | r in e.ranges ensures r.lo <= r.hi {
      var c := ChunkOfRange(e, r);
      assert ChunkTrue(venue, files, c);
    }
  }

  lemma UnionsAssociate(s: set<Range>, a: set<Range>, b: set<Range>, c: set<Range>)
    ensures s + a + b == s + (a + b) && s + a + b + c == s + (a + b + c) && s + {} == s
  {
  }

  lemma StillClear(before: M.Entry, e: M.Entry, added: set<Range>, gap: Range, piece: Range)
    requires Ranges(e) == Ranges(before) + added && ClearOf(before, gap)
    requires gap.lo <= piece.lo && piece.hi <= gap.hi && forall r :: r in added ==> !piece.Meets(r)
    ensures ClearOf(e, piece)
  {
    forall r | r in e.ranges ensures !piece.Meets(r) {
      assert r in Ranges(e);
    }
  }

  /** A range clear of all recorded ones is accepted, and a valid series stays valid. */
  lemma ClearIsAccepted(e: M.Entry, c: M.Chunk)
    requires M.Aligned(e) && AllWellOrdered(e.ranges) && c.range.lo <= c.range.hi && ClearOf(e, c.range)
    ensures M.Accepts(e, c.range)
    ensures M.Valid(e) ==> M.Valid(M.Inserted(e, c))
  {
    if M.Valid(e) { M.DisjointStaysValid(e, c); }
  }

  lemma PieceLies(gap: Range, bars: seq<Bar>, cutoff: int, bar: int, c: M.Chunk)
    requires bar > 0 && c in Pieces(gap, bars, cutoff, bar) && gap.lo <= Span(bars).lo <= Span(bars).hi <= gap.hi
    ensures gap.lo <= c.range.lo <= c.range.hi <= gap.hi
  {
  }

  ghost function RangesOf(chunks: seq<M.Chunk>): set<Range> {
    set c | c in chunks :: c.range
  }

  ghost function IfWellOrdered(r: Range): set<Range> {
    if r.hi >= r.lo then {r} else {}
  }

  lemma TrailIsApart(gap: Range, span: Range, cutoff: int, bar: int)
    requires bar > 0 && span.lo <= span.hi
    ensures forall r :: r in {span} + IfWellOrdered(Lead(gap, span, bar)) ==> !Trail(gap, span, cutoff, bar).Meets(r)
  {
  }

  lemma PieceRanges(gap: Range, bars: seq<Bar>, cutoff: int, bar: int)
    requires bars != []
    ensures var span := Span(bars);
            RangesOf(Pieces(gap, bars, cutoff, bar))
            == {span} + IfWellOrdered(Lead(gap, span, bar)) + IfWellOrdered(Trail(gap, span, cutoff, bar))
  {
    var span := Span(bars);
    var pieces := Pieces(gap, bars, cutoff, bar);
    var lead, trail := Lead(gap, span, bar), Trail(gap, span, cutoff, bar);
    assert pieces[0].range == span && pieces[0] in pieces;
    if lead.hi >= lead.lo { assert M.Chunk(M.NoFile, lead, M.EmptyVerified) in pieces; }
    if trail.hi >= trail.lo { assert M.Chunk(M.NoFile, trail, M.EmptyVerified) in pieces; }
  }

  /** What the fetch of a gap adds to the series. */
  function PiecesOf(fetch: (int, int) -> Fetch, gap: Range, cutoff: int, bar: int): seq<M.Chunk> {
    Pieces(gap, KeptOf(fetch, gap, bar), cutoff, bar)
  }

  function KeptOf(fetch: (int, int) -> Fetch, gap: Range, bar: int): seq<Bar> {
    Kept(fetch(FetchFrom(gap, bar), FetchTo(gap)), gap)
  }

  ghost predicate AllLawful(venue: seq<Bar>, bar: int, cutoff: int, fetch: (int, int) -> Fetch) {
    forall gap: Range :: Lawful(venue, bar, cutoff, gap, fetch(FetchFrom(gap, bar), FetchTo(gap)))
  }

  ghost predicate GapAnswered(venue: seq<Bar>, bar: int, cutoff: int, fetch: (int, int) -> Fetch, gap: Range) {
    Answered(venue, bar, cutoff, gap, fetch(FetchFrom(gap, bar), FetchTo(gap)))
  }

  ghost predicate Completed(venue: seq<Bar>, bar: int, cutoff: int, fetch: (int, int) -> Fetch, gap: Range) {
    Complete(venue, bar, cutoff, FetchFrom(gap, bar), FetchTo(gap), fetch(FetchFrom(gap, bar), FetchTo(gap)).events)
  }

  ghost predicate FromGap(r: Range, gaps: seq<Range>, fetch: (int, int) -> Fetch, cutoff: int, bar: int) {
    exists g, c :: g in gaps && c in PiecesOf(fetch, g, cutoff, bar) && c.range == r
  }

  /** The series e is the series before with the pieces of these gaps added. */
  ghost predicate GrownBy(before: M.Entry, e: M.Entry, gaps: seq<Range>, fetch: (int, int) -> Fetch, cutoff: int, bar: int) {
    && (forall r :: r in before.ranges ==> r in e.ranges)
    && (forall g, c :: g in gaps && c in PiecesOf(fetch, g, cutoff, bar) ==> c.range in e.ranges)
    && (forall r :: r in e.ranges ==> r in before.ranges || FromGap(r, gaps, fetch, cutoff, bar))
  }

  lemma GrownByNothing(e: M.Entry, fetch: (int, int) -> Fetch, cutoff: int, bar: int)
    ensures GrownBy(e, e, [], fetch, cutoff, bar)
  {
  }

  lemma SameRangesGrowAlike(before: M.Entry, mid: M.Entry, e: M.Entry, gaps: seq<Range>, fetch: (int, int) -> Fetch, cutoff: int, bar: int)
    requires GrownBy(before, mid, gaps, fetch, cutoff, bar) && Ranges(e) == Ranges(mid) + {}
    ensures GrownBy(before, e, gaps, fetch, cutoff, bar)
  {
    hide PiecesOf, FromGap;
    assert forall r :: r in e.ranges <==> r in Ranges(e);
    assert forall r :: r in mid.ranges <==> r in Ranges(mid);
  }

  lemma GrownByStep(before: M.Entry, mid: M.Entry, e: M.Entry, gaps: seq<Range>, g: Range, fetch: (int, int) -> Fetch, cutoff: int, bar: int)
    requires GrownBy(before, mid, gaps, fetch, cutoff, bar)
    requires Ranges(e) == Ranges(mid) + RangesOf(PiecesOf(fetch, g, cutoff, bar))
    ensures GrownBy(before, e, gaps + [g], fetch, cutoff, bar)
  {
    hide PiecesOf;
    var more := gaps + [g];
    assert more[|gaps|] == g && g in more;
    assert forall r :: r in e.ranges <==> r in Ranges(e);
    assert forall r :: r in mid.ranges <==> r in Ranges(mid);
    forall h, c | h in more && c in PiecesOf(fetch, h, cutoff, bar) ensures c.range in e.ranges {
      assert h in gaps ==> c.range in mid.ranges;
      assert h == g ==> c.range in RangesOf(PiecesOf(fetch, g, cutoff, bar));
    }
    forall r | r in e.ranges ensures r in before.ranges || FromGap(r, more, fetch, cutoff, bar) {
      if r in mid.ranges && r !in before.ranges {
        var h, c :| h in gaps && c in PiecesOf(fetch, h, cutoff, bar) && c.range == r;
        assert h in more;
      }
    }
  }

  /** The next gap is still clear: what was added lies in earlier gaps. */
  lemma NextGapIsClear(venue: seq<Bar>, before: M.Entry, e: M.Entry, gaps: seq<Range>, window: Range, k: nat,
                       fetch: (int, int) -> Fetch, cutoff: int, bar: int)
    requires History(venue, bar) && k < |gaps| && GrownBy(before, e, gaps[..k], fetch, cutoff, bar)
    requires gaps == Planned(before.ranges, window, bar) && AllWellOrdered(before.ranges)
    requires forall g :: g in gaps[..k] ==> GapAnswered(venue, bar, cutoff, fetch, g)
    ensures ClearOf(e, gaps[k])
  {
    HolesAreExact(before.ranges, window, bar);
    hide Planned, PiecesOf;
    forall r | r in e.ranges ensures !gaps[k].Meets(r) {
      if r in before.ranges {
        HolesAvoidTheCache(before.ranges, window, bar, gaps[k], r);
      } else {
        var g, c :| g in gaps[..k] && c in PiecesOf(fetch, g, cutoff, bar) && c.range == r;
        var i :| 0 <= i < k && gaps[i] == g;
        PieceOfLies(venue, bar, cutoff, fetch, g, c);
        assert gaps[i].hi < gaps[k].lo;
      }
    }
  }

  lemma PieceOfLies(venue: seq<Bar>, bar: int, cutoff: int, fetch: (int, int) -> Fetch, g: Range, c: M.Chunk)
    requires History(venue, bar) && GapAnswered(venue, bar, cutoff, fetch, g) && c in PiecesOf(fetch, g, cutoff, bar)
    ensures g.lo <= c.range.lo <= c.range.hi <= g.hi
  {
    KeptIsTruthful(venue, bar, cutoff, g, fetch(FetchFrom(g, bar), FetchTo(g)));
    hide Kept, Slice, FetchFrom, FetchTo;
    PieceLies(g, KeptOf(fetch, g, bar), cutoff, bar, c);
  }

  // ---------------------------------------------------------------- orphaned journals

  /** A gap-free run, sorted and deduplicated, is the venue's slice between its first and last bar. */
  lemma RunIsSlice(venue: seq<Bar>, bar: int, run: seq<Bar>)
    requires History(venue, bar) && GapFree(run, venue)
    ensures AllFrom(Collected(run), venue)
    ensures Collected(run) != [] ==>
              Collected(run) == Slice(venue, Span(Collected(run))) && Span(Collected(run)).lo <= Span(Collected(run)).hi
  {
    CollectedFacts(run, venue);
    var bars := Collected(run);
    hide Collected, Slice;
    if bars != [] {
      var span := Span(bars);
      assert bars[0] in bars && bars[|bars| - 1] in bars;
      AscendingSpan(bars, bars[0]);
      SliceFacts(venue, span);
      forall b ensures b in bars <==> b in Slice(venue, span) {
        if b in bars { AscendingSpan(bars, b); }
        if b in venue && span.Has(b.ts) { assert bars[0] in run && bars[|bars| - 1] in run; }
      }
      AscendingIsUnique(bars, Slice(venue, span));
    }
  }

  /** Both ends of the range are close stamps of the venue. */
  ghost predicate Stamped(venue: seq<Bar>, r: Range) {
    exists a, b :: a in venue && b in venue && a.ts == r.lo && b.ts == r.hi
  }

  /** Recovery keeps what was recorded and adds ranges the venue's own bars span. */
  ghost predicate Recovered(venue: seq<Bar>, before: M.Entry, e: M.Entry) {
    && (forall r :: r in before.ranges ==> r in e.ranges)
    && (forall r :: r in e.ranges ==> r in before.ranges || Stamped(venue, r))
  }

  lemma RecoveredItself(venue: seq<Bar>, e: M.Entry)
    ensures Recovered(venue, e, e)
  {
  }

  lemma RecoveredStep(venue: seq<Bar>, before: M.Entry, mid: M.Entry, c: M.Chunk, ok: bool, e: M.Entry)
    requires Recovered(venue, before, mid) && Stamped(venue, c.range) && M.Aligned(mid)
    requires e == if ok then M.Inserted(mid, c) else mid
    ensures Recovered(venue, before, e)
  {
    hide Stamped, M.Inserted;
    InsertedMembers(mid, c);
  }

  lemma SpanIsStamped(venue: seq<Bar>, bars: seq<Bar>)
    requires bars != [] && AllFrom(bars, venue)
    ensures Stamped(venue, Span(bars))
  {
    assert bars[0] in bars && bars[|bars| - 1] in bars;
  }

  lemma FlatStep(pages: seq<seq<Bar>>, i: nat)
    requires i < |pages|
    ensures Flat(pages[..i + 1]) == Flat(pages[..i]) + pages[i]
  {
    PrefixStep(pages, i);
  }

  // ---------------------------------------------------------------- what a completed load guarantees

  lemma PieceIsIn(bars: seq<Bar>, gap: Range, cutoff: int, bar: int)
    requires bars != []
    ensures M.Chunk(M.ChunkFile(Span(bars)), Span(bars), M.Bars) in Pieces(gap, bars, cutoff, bar)
    ensures var r := Lead(gap, Span(bars), bar);
            r.lo <= r.hi ==> M.Chunk(M.NoFile, r, M.EmptyVerified) in Pieces(gap, bars, cutoff, bar)
    ensures var r := Trail(gap, Span(bars), cutoff, bar);
            r.lo <= r.hi ==> M.Chunk(M.NoFile, r, M.EmptyVerified) in Pieces(gap, bars, cutoff, bar)
  {
    var pieces := Pieces(gap, bars, cutoff, bar);
    assert pieces[0] in pieces;
  }

  /** The pieces of a settled gap leave none of its stamps a bar or more from all of them. */
  lemma PiecesCoverGap(ranges: seq<Range>, gap: Range, window: Range, bars: seq<Bar>, cutoff: int, bar: int, x: int)
    requires bar > 0 && bars != [] && gap.lo <= Span(bars).lo <= Span(bars).hi <= gap.hi
    requires window.lo <= gap.lo && gap.hi <= window.hi <= cutoff && gap.Has(x)
    requires forall c :: c in Pieces(gap, bars, cutoff, bar) ==> c.range in ranges
    ensures NearOne(ranges, window, x, bar)
  {
    PieceIsIn(bars, gap, cutoff, bar);
    hide Pieces;
    var span := Span(bars);
    var lead, trail := Lead(gap, span, bar), Trail(gap, span, cutoff, bar);
    if x <= span.lo - bar {
      assert lead in ranges && lead.Near(x, bar);
    } else if x >= span.hi + bar {
      assert trail in ranges && trail.Near(x, bar);
    } else {
      assert span in ranges && span.Near(x, bar);
    }
  }

  ghost predicate AllAnswered(venue: seq<Bar>, bar: int, cutoff: int, fetch: (int, int) -> Fetch, gaps: seq<Range>) {
    forall g :: g in gaps ==> GapAnswered(venue, bar, cutoff, fetch, g)
  }

  ghost predicate AllCompleted(venue: seq<Bar>, bar: int, cutoff: int, fetch: (int, int) -> Fetch, gaps: seq<Range>) {
    forall g :: g in gaps ==> Completed(venue, bar, cutoff, fetch, g)
  }

  lemma WarmStampIsCovered(venue: seq<Bar>, before: M.Entry, e: M.Entry, window: Range, gaps: seq<Range>,
                           fetch: (int, int) -> Fetch, cutoff: int, bar: int, x: int)
    requires History(venue, bar) && GrownBy(before, e, gaps, fetch, cutoff, bar) && AllAnswered(venue, bar, cutoff, fetch, gaps)
    requires (forall g :: g in gaps ==> KeptOf(fetch, g, bar) != []) && Ascending(gaps, window, window.hi + 1)
    requires window.hi <= cutoff && window.Has(x) && (Covered(before.ranges, window, x, bar) || InGaps(gaps, x))
    ensures Covered(e.ranges, window, x, bar)
  {
    hide Pieces, Kept, FetchFrom, FetchTo, Complete;
    if Covered(before.ranges, window, x, bar) {
      CoverageGrows(before.ranges, e.ranges, window, x, bar);
    } else {
      hide Covered;
      var g :| g in gaps && g.Has(x);
      KeptIsTruthful(venue, bar, cutoff, g, fetch(FetchFrom(g, bar), FetchTo(g)));
      PiecesCoverGap(e.ranges, g, window, KeptOf(fetch, g, bar), cutoff, bar, x);
      NearIsCovered(e.ranges, window, x, bar);
    }
  }

  lemma NearIsCovered(ranges: seq<Range>, window: Range, x: int, bar: int)
    requires NearOne(ranges, window, x, bar)
    ensures Covered(ranges, window, x, bar)
  {
  }

  /** A warm load fetches nothing: once every gap has come back with a bar, the window is covered. */
  lemma WarmPlanIsEmpty(venue: seq<Bar>, before: M.Entry, e: M.Entry, window: Range, gaps: seq<Range>,
                        fetch: (int, int) -> Fetch, cutoff: int, bar: int)
    requires History(venue, bar) && gaps == Planned(before.ranges, window, bar)
    requires GrownBy(before, e, gaps, fetch, cutoff, bar) && AllAnswered(venue, bar, cutoff, fetch, gaps)
    requires (forall g :: g in gaps ==> KeptOf(fetch, g, bar) != []) && window.hi <= cutoff
    ensures Planned(e.ranges, window, bar) == []
  {
    HolesAreExact(before.ranges, window, bar);
    hide Planned, Covered, Kept, KeptOf, PiecesOf;
    forall x | window.Has(x) ensures Covered(e.ranges, window, x, bar) {
      WarmStampIsCovered(venue, before, e, window, gaps, fetch, cutoff, bar, x);
    }
    CoveredPlansNothing(e.ranges, window, bar);
  }

  /** Every settled bar of a fetched gap ends up in a recorded range. */
  lemma FetchedBarIsKnown(venue: seq<Bar>, before: M.Entry, e: M.Entry, gaps: seq<Range>, g: Range, fetch: (int, int) -> Fetch,
                          cutoff: int, bar: int, b: Bar)
    requires History(venue, bar) && GrownBy(before, e, gaps, fetch, cutoff, bar) && g in gaps
    requires Completed(venue, bar, cutoff, fetch, g) && b in venue && g.Has(b.ts) && b.ts <= cutoff
    ensures Known(e, b.ts)
  {
    var f := fetch(FetchFrom(g, bar), FetchTo(g));
    KeptIsComplete(venue, bar, cutoff, g, f, b);
    KeptElements(venue, f, g);
    hide Kept;
    AscendingSpan(Kept(f, g), b);
    PieceIsIn(Kept(f, g), g, cutoff, bar);
    hide Pieces;
    assert M.Chunk(M.ChunkFile(Span(Kept(f, g))), Span(Kept(f, g)), M.Bars) in PiecesOf(fetch, g, cutoff, bar);
    assert Span(Kept(f, g)) in e.ranges;
  }

  // ---------------------------------------------------------------- the bar grid

  predicate OnGrid(x: int, bar: int, phase: int)
    requires bar > 0
  {
    (x - phase) % bar == 0
  }

  lemma GridApart(x: int, y: int, bar: int, phase: int)
    requires bar > 0 && OnGrid(x, bar, phase) && OnGrid(y, bar, phase) && x < y
    ensures x + bar <= y
  {
    var i, j := (x - phase) / bar, (y - phase) / bar;
    assert x == phase + i * bar && y == phase + j * bar;
    if i >= j { MulMonotone(j, i, bar); }
    MulMonotone(i + 1, j, bar);
  }

  lemma GridNeighbours(x: int, bar: int, phase: int)
    requires bar > 0 && OnGrid(x, bar, phase)
    ensures OnGrid(x + bar, bar, phase) && OnGrid(x - bar, bar, phase)
  {
    var i := (x - phase) / bar;
    assert x - phase == i * bar;
    assert x + bar - phase == (i + 1) * bar && x - bar - phase == (i - 1) * bar;
    MultipleHasNoRemainder(i + 1, bar);
    MultipleHasNoRemainder(i - 1, bar);
  }

  lemma MultipleHasNoRemainder(k: int, bar: int)
    requires bar > 0
    ensures (k * bar) % bar == 0
  {
    var q, r := (k * bar) / bar, (k * bar) % bar;
    assert (k - q) * bar == r;
    if k - q >= 1 { MulMonotone(1, k - q, bar); }
    if k - q <= -1 { MulMonotone(k - q, -1, bar); }
  }

  ghost predicate RangeOnGrid(r: Range, bar: int, phase: int)
    requires bar > 0
  {
    OnGrid(r.lo, bar, phase) && OnGrid(r.hi, bar, phase)
  }

  ghost predicate AllOnGrid(ranges: seq<Range>, bar: int, phase: int)
    requires bar > 0
  {
    forall r :: r in ranges ==> RangeOnGrid(r, bar, phase)
  }

  ghost predicate VenueOnGrid(venue: seq<Bar>, bar: int, phase: int)
    requires bar > 0
  {
    forall b :: b in venue ==> OnGrid(b.ts, bar, phase)
  }

  /** On the grid, less than a bar away means inside, and nothing straddles a stamp. */
  lemma CoveredOnGrid(ranges: seq<Range>, window: Range, x: int, bar: int, phase: int)
    requires bar > 0 && AllOnGrid(ranges, bar, phase) && OnGrid(x, bar, phase) && window.Has(x) && Covered(ranges, window, x, bar)
    ensures exists r :: r in ranges && r.Has(x)
  {
    hide OnGrid;
    if NearOne(ranges, window, x, bar) {
      var r :| r in ranges && r.lo <= r.hi && r.Meets(window) && r.Near(x, bar);
      assert RangeOnGrid(r, bar, phase);
      if x < r.lo { GridApart(x, r.lo, bar, phase); }
      if r.hi < x { GridApart(r.hi, x, bar, phase); }
    } else {
      var r, q :| r in ranges && q in ranges && r.lo <= r.hi && q.lo <= q.hi && r.hi < window.lo && window.hi < q.lo <= r.hi + bar;
      assert RangeOnGrid(r, bar, phase) && RangeOnGrid(q, bar, phase);
      GridApart(r.hi, x, bar, phase);
    }
  }

  /** A load over a series recorded on the grid misses no settled bar of its window. */
  lemma EverySettledBarIsKnown(venue: seq<Bar>, before: M.Entry, e: M.Entry, window: Range, fetch: (int, int) -> Fetch,
                               cutoff: int, bar: int, phase: int, b: Bar)
    requires History(venue, bar) && VenueOnGrid(venue, bar, phase) && AllOnGrid(before.ranges, bar, phase)
    requires var gaps := Planned(before.ranges, window, bar);
             GrownBy(before, e, gaps, fetch, cutoff, bar) && AllCompleted(venue, bar, cutoff, fetch, gaps)
    requires b in venue && window.Has(b.ts) && b.ts <= cutoff
    ensures Known(e, b.ts)
  {
    HolesAreExact(before.ranges, window, bar);
    var gaps := Planned(before.ranges, window, bar);
    hide Planned, PiecesOf;
    if Covered(before.ranges, window, b.ts, bar) {
      CoveredOnGrid(before.ranges, window, b.ts, bar, phase);
    } else {
      assert InGaps(gaps, b.ts);
      var g :| g in gaps && g.Has(b.ts);
      FetchedBarIsKnown(venue, before, e, gaps, g, fetch, cutoff, bar, b);
    }
  }

  lemma RecoveredOnGrid(venue: seq<Bar>, saved: M.Entry, before: M.Entry, bar: int, phase: int)
    requires bar > 0 && Recovered(venue, saved, before) && VenueOnGrid(venue, bar, phase) && AllOnGrid(saved.ranges, bar, phase)
    ensures AllOnGrid(before.ranges, bar, phase)
  {
    hide OnGrid;
    forall r | r in before.ranges ensures RangeOnGrid(r, bar, phase) {
      assert r in saved.ranges || Stamped(venue, r);
    }
  }

  function Window(startMs: int, endMs: int): Range {
    Range(startMs * NANOS_PER_MILLI, endMs * NANOS_PER_MILLI)
  }

  /**
   * A completed load: the series has grown by the pieces of the planned gaps; a settled window whose
   * gaps all came back with a bar plans nothing more; and, when the series was recorded on the bar
   * grid and no fetch failed silently, every settled bar of the window is among the bars returned.
   */
  ghost predicate Delivers(venue: seq<Bar>, saved: M.Entry, before: M.Entry, e: M.Entry, window: Range,
                           fetch: (int, int) -> Fetch, cutoff: int, bar: int, phase: int)
    requires bar > 0
  {
    var gaps := Planned(before.ranges, window, bar);
    && GrownBy(before, e, gaps, fetch, cutoff, bar) && AllAnswered(venue, bar, cutoff, fetch, gaps)
    && (window.hi <= cutoff && (forall g :: g in gaps ==> KeptOf(fetch, g, bar) != []) ==> Planned(e.ranges, window, bar) == [])
    && (VenueOnGrid(venue, bar, phase) && AllOnGrid(saved.ranges, bar, phase) && AllCompleted(venue, bar, cutoff, fetch, gaps)
        ==> forall b :: b in venue && window.Has(b.ts) && b.ts <= cutoff ==> b in Visible(venue, e, window))
  }

  /** What a completed load may rely on, from what was planned over and what the series has become. */
  lemma LoadGuarantees(venue: seq<Bar>, saved: M.Entry, before: M.Entry, e: M.Entry, window: Range, gaps: seq<Range>,
                       fetch: (int, int) -> Fetch, cutoff: int, bar: int, phase: int)
    requires History(venue, bar) && Recovered(venue, saved, before) && gaps == Planned(before.ranges, window, bar)
    requires GrownBy(before, e, gaps, fetch, cutoff, bar) && AllAnswered(venue, bar, cutoff, fetch, gaps)
    ensures Delivers(venue, saved, before, e, window, fetch, cutoff, bar, phase)
  {
    hide Planned, KeptOf, GrownBy, AllCompleted, AllAnswered, Recovered, Visible, OnGrid;
    if window.hi <= cutoff && (forall g :: g in gaps ==> KeptOf(fetch, g, bar) != []) {
      WarmPlanIsEmpty(venue, before, e, window, gaps, fetch, cutoff, bar);
    }
    if VenueOnGrid(venue, bar, phase) && AllOnGrid(saved.ranges, bar, phase) && AllCompleted(venue, bar, cutoff, fetch, gaps) {
      RecoveredOnGrid(venue, saved, before, bar, phase);
      VisibleElements(venue, e, window);
      forall b | b in venue && window.Has(b.ts) && b.ts <= cutoff ensures b in Visible(venue, e, window) {
        EverySettledBarIsKnown(venue, before, e, window, fetch, cutoff, bar, phase, b);
      }
    }
  }
}
