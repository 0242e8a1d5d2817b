/**
 * Which loads can miss data. A series stays on the bar grid as long as the windows asked for and
 * the moments they are asked at do; then no settled bar is ever missed. Off the grid, a verified
 * hole that ends between two close stamps hides the next bar from every later window that meets it.
 */
module LoaderGrid {
  import opened Trading
  import opened Gap
  import opened BarSets
  import opened CacheProtocol
  import opened Loader
  import M = Manifest

  // ---------------------------------------------------------------- loads on the grid stay on the grid

  lemma {:induction false} CoalescedOnGrid(ranges: seq<Range>, width: int, bar: int, phase: int)
    requires bar > 0 && AllOnGrid(ranges, bar, phase)
    ensures AllOnGrid(Coalesced(ranges, width), bar, phase)
  {
    hide OnGrid;
    if ranges != [] {
      var init, r := ranges[..|ranges| - 1], ranges[|ranges| - 1];
      assert ranges == init + [r];
      CoalescedOnGrid(init, width, bar, phase);
      var merged := Coalesced(init, width);
      if merged != [] {
        assert merged[|merged| - 1] in merged && RangeOnGrid(merged[|merged| - 1], bar, phase);
        assert merged == merged[..|merged| - 1] + [merged[|merged| - 1]];
      }
      assert RangeOnGrid(r, bar, phase);
    }
  }

  lemma {:induction false} WalkOnGrid(merged: seq<Range>, window: Range, bar: int, phase: int)
    requires bar > 0 && AllOnGrid(merged, bar, phase) && RangeOnGrid(window, bar, phase)
    ensures var w := PassedAll(merged, window, bar); OnGrid(w.cursor, bar, phase) && AllOnGrid(w.gaps, bar, phase)
  {
    hide OnGrid;
    if merged != [] {
      var c := merged[|merged| - 1];
      assert merged == merged[..|merged| - 1] + [c];
      WalkOnGrid(merged[..|merged| - 1], window, bar, phase);
      assert RangeOnGrid(c, bar, phase);
      GridNeighbours(c.lo, bar, phase);
      GridNeighbours(c.hi, bar, phase);
    }
  }

  lemma PlannedOnGrid(cached: seq<Range>, window: Range, bar: int, phase: int)
    requires bar > 0 && AllOnGrid(cached, bar, phase) && RangeOnGrid(window, bar, phase)
    ensures AllOnGrid(Planned(cached, window, bar), bar, phase)
  {
    hide OnGrid, Coalesced, PassedAll, SortedRanges;
    SortedRangesFacts(cached);
    CoalescedOnGrid(SortedRanges(cached), bar, bar, phase);
    WalkOnGrid(Coalesced(SortedRanges(cached), bar), window, bar, phase);
  }

  lemma PieceOnGrid(venue: seq<Bar>, gap: Range, bars: seq<Bar>, cutoff: int, bar: int, phase: int, c: M.Chunk)
    requires bar > 0 && VenueOnGrid(venue, bar, phase) && RangeOnGrid(gap, bar, phase) && OnGrid(cutoff, bar, phase)
    requires AllFrom(bars, venue) && c in Pieces(gap, bars, cutoff, bar)
    ensures RangeOnGrid(c.range, bar, phase)
  {
    hide OnGrid;
    var span := Span(bars);
    assert bars[0] in bars && bars[|bars| - 1] in bars;
    GridNeighbours(span.lo, bar, phase);
    GridNeighbours(span.hi, bar, phase);
  }

  /** With the window, the clock and the series on the grid, the series is on the grid afterwards. */
  lemma LoadsStayOnGrid(venue: seq<Bar>, saved: M.Entry, before: M.Entry, e: M.Entry, window: Range, fetch: (int, int) -> Fetch,
                        cutoff: int, bar: int, phase: int)
    requires History(venue, bar) && VenueOnGrid(venue, bar, phase) && AllOnGrid(saved.ranges, bar, phase)
    requires RangeOnGrid(window, bar, phase) && OnGrid(cutoff, bar, phase)
    requires Recovered(venue, saved, before) && Delivers(venue, saved, before, e, window, fetch, cutoff, bar, phase)
    ensures AllOnGrid(e.ranges, bar, phase)
  {
    var gaps := Planned(before.ranges, window, bar);
    RecoveredOnGrid(venue, saved, before, bar, phase);
    PlannedOnGrid(before.ranges, window, bar, phase);
    hide OnGrid, Planned, Pieces;
    forall r | r in e.ranges ensures RangeOnGrid(r, bar, phase) {
      if r !in before.ranges {
        var g, c :| g in gaps && c in PiecesOf(fetch, g, cutoff, bar) && c.range == r;
        KeptElements(venue, fetch(FetchFrom(g, bar), FetchTo(g)), g);
        PieceOnGrid(venue, g, KeptOf(fetch, g, bar), cutoff, bar, phase, c);
      }
    }
  }

  // ---------------------------------------------------------------- the sliver that hides a bar

  /** A bar the cache does not hold and will never plan to fetch for this window. */
  ghost predicate Hidden(e: M.Entry, window: Range, bar: int, b: Bar) {
    window.Has(b.ts) && !Known(e, b.ts) && !InGaps(Planned(e.ranges, window, bar), b.ts)
  }

  /**
   * Exactly when a bar outside every recorded range is hidden from a window: a recorded range that
   * meets the window ends or begins less than one bar away from it, or two ranges straddle it.
   */
  lemma HiddenExactlyInSlivers(e: M.Entry, window: Range, bar: int, b: Bar)
    requires bar > 0 && window.Has(b.ts) && !Known(e, b.ts)
    ensures Hidden(e, window, bar, b) <==> Covered(e.ranges, window, b.ts, bar)
  {
    HolesAreExact(e.ranges, window, bar);
    hide Planned, Covered;
  }

  const SECOND := 1_000_000_000
  const MINUTE := 60 * SECOND

  function Tick(seconds: int): Bar {
    Bar(0, seconds * SECOND, 1, 1, 1, 1, 1)
  }

  function Seconds(lo: int, hi: int): Range {
    Range(lo * SECOND, hi * SECOND)
  }

  /**
   * A venue of one-minute bars closing at seconds 60, 120 and 240. A first load of the window from
   * second 60 to second 200, asked for when all of it is settled, records bars up to 120 and a
   * verified hole from 180 to 200. From then on the bar at 240 is hidden from exactly those later
   * windows that meet the hole.
   */
  lemma OffGridWindowHidesABar(e: M.Entry, cutoff: int, later: Range)
    requires 200 * SECOND <= cutoff && later.Has(240 * SECOND)
    requires forall r :: r in e.ranges <==> exists c :: c in Pieces(Seconds(60, 200), [Tick(60), Tick(120)], cutoff, MINUTE) && c.range == r
    ensures var venue := [Tick(60), Tick(120), Tick(240)];
            && History(venue, MINUTE) && Truthful(venue, Seconds(60, 200), [Tick(60), Tick(120)], cutoff, MINUTE)
            && (Hidden(e, later, MINUTE, venue[2]) <==> later.Meets(Seconds(180, 200)))
  {
    QuietVenueIsLawful(cutoff);
    hide Pieces, Slice, Truthful, History;
    HiddenBehindHole(e, [Tick(60), Tick(120)], Seconds(60, 200), cutoff, MINUTE, Seconds(180, 200), later, Tick(240));
  }

  lemma QuietVenueIsLawful(cutoff: int)
    requires 200 * SECOND <= cutoff
    ensures var venue := [Tick(60), Tick(120), Tick(240)];
            History(venue, MINUTE) && Truthful(venue, Seconds(60, 200), [Tick(60), Tick(120)], cutoff, MINUTE)
  {
    SlicesOfQuietVenue(cutoff);
    hide Slice;
  }

  /** A series that records the pieces of one gap, the last of them a hole, hides a bar less than a bar's width behind it. */
  lemma HiddenBehindHole(e: M.Entry, bars: seq<Bar>, gap: Range, cutoff: int, bar: int, hole: Range, later: Range, b: Bar)
    requires bar > 0 && bars != [] && gap.lo <= Span(bars).lo <= Span(bars).hi <= gap.hi && hole == Trail(gap, Span(bars), cutoff, bar)
    requires forall r :: r in e.ranges <==> exists c :: c in Pieces(gap, bars, cutoff, bar) && c.range == r
    requires hole.lo <= hole.hi == gap.hi < b.ts && hole.Near(b.ts, bar) && later.Has(b.ts)
    ensures Hidden(e, later, bar, b) <==> later.Meets(hole)
  {
    PieceIsIn(bars, gap, cutoff, bar);
    forall c | c in Pieces(gap, bars, cutoff, bar) ensures c.range.hi <= gap.hi {
      PieceLies(gap, bars, cutoff, bar, c);
    }
    hide Pieces;
    HiddenExactlyInSlivers(e, later, bar, b);
    HoleReaches(e, later, hole, b.ts, bar);
  }

  /** With everything recorded behind the stamp, it is covered exactly when the hole it is near meets the window. */
  lemma HoleReaches(e: M.Entry, later: Range, hole: Range, x: int, bar: int)
    requires later.Has(x) && hole in e.ranges && hole.lo <= hole.hi < x && hole.Near(x, bar)
    requires forall r :: r in e.ranges ==> r.hi <= hole.hi
    ensures Covered(e.ranges, later, x, bar) <==> later.Meets(hole)
  {
  }

  lemma QuietSlice()
    ensures Slice([Tick(60), Tick(120), Tick(240)], Seconds(60, 120)) == [Tick(60), Tick(120)]
  {
    var venue, span := [Tick(60), Tick(120), Tick(240)], Seconds(60, 120);
    SliceFacts(venue, span);
    hide Slice;
    assert venue[2] == Tick(240) && forall b :: b in venue <==> b == Tick(60) || b == Tick(120) || b == Tick(240);
    AscendingIsUnique(Slice(venue, span), [Tick(60), Tick(120)]);
  }

  lemma SlicesOfQuietVenue(cutoff: int)
    ensures var venue, span := [Tick(60), Tick(120), Tick(240)], Seconds(60, 120);
            && Slice(venue, span) == [Tick(60), Tick(120)]
            && Slice(venue, Lead(Seconds(60, 200), span, MINUTE)) == []
            && Slice(venue, Trail(Seconds(60, 200), span, cutoff, MINUTE)) == []
  {
    QuietSlice();
    hide Slice;
    var venue, span := [Tick(60), Tick(120), Tick(240)], Seconds(60, 120);
    EmptySlice(venue, Lead(Seconds(60, 200), span, MINUTE));
    EmptySlice(venue, Trail(Seconds(60, 200), span, cutoff, MINUTE));
  }
}
