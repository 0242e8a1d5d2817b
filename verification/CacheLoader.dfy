/**
 * The range-aware, resumable loader, in place over one series' cache directory: recover orphaned
 * journals, plan the gaps, fetch and record each, assemble the window. Every disk operation is one
 * step of the cache protocol, so a crash after any of them leaves a safe directory.
 */
module CacheLoader {
  import opened Prelude
  import opened Trading
  import opened Gap
  import opened BarSets
  import opened CacheProtocol
  import opened Loader
  import opened Recovery
  import M = Manifest

  class Cache {
    const key: M.Key
    const bar: int
    ghost const venue: seq<Bar>
    ghost const origin: State
    /** Whether connectors clip what they journal, and windows, clock and bars share one grid. */
    ghost const regular: bool
    ghost const phase: int
    var files: map<Range, seq<Bar>>
    var journals: map<Range, seq<Bar>>
    var saved: seq<M.Entry>
    var manifest: M.Store
    ghost var running: bool
    ghost var acts: seq<Act>

    /** A directory found on disk. */
    constructor (key: M.Key, bar: int, files: map<Range, seq<Bar>>, journals: map<Range, seq<Bar>>, saved: seq<M.Entry>,
                 ghost venue: seq<Bar>, ghost regular: bool, ghost phase: int)
      requires History(venue, bar) && Safe(venue, key, State(files, journals, saved, None))
      requires regular ==> Gridded(venue, bar, phase) && Tidy(key, bar, phase, State(files, journals, saved, None))
      ensures Valid() && !running && this.key == key && this.bar == bar && this.venue == venue
      ensures this.regular == regular && this.phase == phase
      ensures this.files == files && this.journals == journals && this.saved == saved && fresh(manifest)
    {
      this.key, this.bar, this.venue := key, bar, venue;
      this.files, this.journals, this.saved := files, journals, saved;
      origin := State(files, journals, saved, None);
      this.regular, this.phase := regular, phase;
      running, acts := false, [];
      manifest := new M.Store([]);
    }

    ghost function Now(): State
      reads this, manifest
    {
      State(files, journals, saved, if running then Some(manifest.entries) else None)
    }

    /** The directory is where a run of enabled disk operations took it. */
    ghost predicate Valid()
      reads this, manifest
    {
      && History(venue, bar) && Safe(venue, key, origin)
      && Reached(venue, key, origin, acts) == Some(Now())
      && (regular ==> Gridded(venue, bar, phase) && TidyRun(venue, key, bar, phase, origin, acts))
    }

    ghost function Entry(): M.Entry
      reads this`manifest, manifest`entries
    {
      M.Series(manifest.entries, key)
    }

    /** Nothing false is recorded, and every recorded chunk of bars has its file. */
    lemma ValidIsSafe()
      requires Valid()
      ensures Safe(venue, key, Now())
    {
      EveryReachedStateIsSafe(venue, key, origin, acts);
    }

    lemma NowIsTidy()
      requires Valid() && regular
      ensures Gridded(venue, bar, phase) && Tidy(key, bar, phase, Now())
    {
      TidyRunsStayValid(venue, key, bar, phase, origin, acts);
    }

    /**
     * In a regular cache the saved series validates after every disk operation so far, so whenever
     * the process may have died.
     */
    lemma RegularStaysValid()
      requires Valid() && regular
      ensures forall k :: 0 <= k <= |acts| ==>
                var past := Reached(venue, key, origin, acts[..k]);
                past.Some? && M.Valid(M.Series(past.value.saved, key))
    {
      hide M.Valid, M.Series, TidyRun, Reached;
      forall k: nat | k <= |acts|
        ensures Reached(venue, key, origin, acts[..k]).Some? && M.Valid(M.Series(Reached(venue, key, origin, acts[..k]).value.saved, key))
      {
        TidyPrefix(venue, key, bar, phase, origin, acts, k);
        TidyRunsStayValid(venue, key, bar, phase, origin, acts[..k]);
      }
    }

    lemma CanPerform(a: Act)
      requires Valid() && Enabled(venue, key, Now(), a) && (regular ==> TidyAct(key, bar, phase, Now(), a))
      ensures Reached(venue, key, origin, acts + [a]) == Some(Performed(venue, key, Now(), a))
      ensures regular ==> Gridded(venue, bar, phase) && TidyRun(venue, key, bar, phase, origin, acts + [a])
    {
      hide Enabled, Performed, TidyAct, Tidy, TidyRun, Reached;
      ReachedExtends(venue, key, origin, acts, a);
      if regular { TidyExtends(venue, key, bar, phase, origin, acts, a); }
    }

    // -------------------------------------------------------------- disk operations

    method Open()
      requires Valid()
      modifies this`manifest, this`running, this`acts
      ensures Valid() && running && fresh(manifest) && manifest.entries == saved
    {
      hide History, Safe, Reached, TidyRun, Gridded;
      CanPerform(Act.Open);
      manifest := new M.Store(saved);
      running, acts := true, acts + [Act.Open];
    }

    /** The process dies: the working manifest is gone, the directory stays. */
    method Crash()
      requires Valid()
      modifies this`running, this`acts
      ensures Valid() && !running
    {
      hide History, Safe, Reached, TidyRun, Gridded;
      CanPerform(Act.Crash);
      running, acts := false, acts + [Act.Crash];
    }

    method StartJournal(gap: Range)
      requires Valid() && running
      requires regular ==> (forall g :: g in journals ==> g == gap) && ClearAhead(M.Series(saved, key), gap, bar)
      modifies this`journals, this`acts
      ensures Valid() && journals == old(journals)[gap := []]
    {
      hide History, Safe, Reached, TidyRun, Gridded;
      CanPerform(Act.StartJournal(gap));
      acts := acts + [Act.StartJournal(gap)];
      journals := journals[gap := []];
    }

    method AppendJournal(gap: Range, page: seq<Bar>)
      requires Valid() && running && gap in journals && GapFree(journals[gap] + page, venue)
      requires regular ==> InPlace(page, gap, bar)
      modifies this`journals, this`acts
      ensures Valid() && journals == old(journals)[gap := old(journals)[gap] + page]
    {
      hide History, Safe, Reached, TidyRun, Gridded;
      CanPerform(Act.AppendJournal(gap, page));
      acts := acts + [Act.AppendJournal(gap, page)];
      journals := journals[gap := journals[gap] + page];
    }

    method DropJournal(gap: Range)
      requires Valid() && running
      modifies this`journals, this`acts
      ensures Valid() && journals == old(journals) - {gap}
    {
      hide History, Safe, Reached, TidyRun, Gridded;
      CanPerform(Act.DropJournal(gap));
      acts := acts + [Act.DropJournal(gap)];
      journals := journals - {gap};
    }

    method WriteChunk(range: Range, bars: seq<Bar>)
      requires Valid() && running && bars == Slice(venue, range)
      modifies this`files, this`acts
      ensures Valid() && files == old(files)[range := bars]
    {
      hide History, Safe, Reached, TidyRun, Gridded;
      CanPerform(Act.WriteChunk(range, bars));
      acts := acts + [Act.WriteChunk(range, bars)];
      files := files[range := bars];
    }

    method Record(c: M.Chunk) returns (ok: bool)
      requires Valid() && running && ChunkTrue(venue, files, c)
      modifies manifest`entries, this`acts
      ensures Valid() && M.Aligned(old(Entry())) && M.Aligned(Entry())
      ensures ok <==> M.Accepts(old(Entry()), c.range)
      ensures Entry() == if ok then M.Inserted(old(Entry()), c) else old(Entry())
      ensures !ok ==> manifest.entries == old(manifest.entries)
    {
      ValidIsSafe();
      CanPerform(Act.Record(c));
      acts := acts + [Act.Record(c)];
      ghost var e := Entry();
      SeriesKey(manifest.entries, key);
      M.UpdatedSeries(manifest.entries, M.Inserted(e, c), key);
      M.InsertedShape(e, c);
      ok := manifest.RecordRange(key, c.file, c.range, c.coverage);
      assert M.Chunk(c.file, c.range, c.coverage) == c;
    }

    method Save()
      requires Valid() && running
      requires regular ==> ValidOnGrid(Entry(), bar, phase) && forall g :: g in journals ==> ClearAhead(Entry(), g, bar)
      modifies this`saved, this`acts
      ensures Valid() && saved == manifest.entries
    {
      hide History, Safe, Reached, TidyRun, Gridded;
      CanPerform(Act.Save);
      acts := acts + [Act.Save];
      saved := manifest.entries;
    }

    // -------------------------------------------------------------- one gap

    /** Record one chunk of a gap that nothing recorded meets. */
    method RecordPiece(c: M.Chunk)
      requires Valid() && running && ChunkTrue(venue, files, c) && ClearOf(Entry(), c.range)
      modifies manifest`entries, this`acts
      ensures Valid() && M.Aligned(old(Entry())) && M.Aligned(Entry())
      ensures Ranges(Entry()) == Ranges(old(Entry())) + {c.range}
      ensures M.Valid(old(Entry())) ==> M.Valid(Entry())
    {
      assert M.Aligned(Entry()) && AllWellOrdered(Entry().ranges) && c.range.lo <= c.range.hi by {
        hide M.Series, Slice;
        ValidIsSafe();
        TrueRangesAreWellOrdered(venue, files, Entry());
      }
      hide Valid, M.Series, M.Valid, M.Inserted, M.Accepts, ClearOf, ChunkTrue, AllWellOrdered;
      ClearIsAccepted(Entry(), c);
      InsertedMembers(Entry(), c);
      var ok := Record(c);
    }

    /** Mark a hole of a gap as verified empty, unless it has no stamps. */
    method RecordHole(hole: Range)
      requires Valid() && running && Slice(venue, hole) == [] && (hole.lo <= hole.hi ==> ClearOf(Entry(), hole))
      modifies manifest`entries, this`acts
      ensures Valid() && Ranges(Entry()) == Ranges(old(Entry())) + IfWellOrdered(hole)
      ensures M.Valid(old(Entry())) ==> M.Valid(Entry())
    {
      if hole.hi >= hole.lo {
        RecordPiece(M.Chunk(M.NoFile, hole, M.EmptyVerified));
      }
    }

    /**
     * Write the chunk for what the venue returned and mark the settled holes around it as verified
     * empty; an empty fetch records nothing. No record is ever rejected.
     */
    method RecordFetchedGap(gap: Range, bars: seq<Bar>, cutoff: int)
      requires Valid() && running && Truthful(venue, gap, bars, cutoff, bar) && ClearOf(Entry(), gap)
      modifies manifest`entries, this`files, this`acts
      ensures Valid()
      ensures Ranges(Entry()) == Ranges(old(Entry())) + RangesOf(Pieces(gap, bars, cutoff, bar))
      ensures M.Valid(old(Entry())) ==> M.Valid(Entry())
    {
      if bars == [] {
        return;
      }
      assert bar > 0;
      hide M.Valid, Slice, Pieces, ClearOf, Ranges, RangesOf, Valid, Entry;
      PieceRanges(gap, bars, cutoff, bar);
      ghost var before := Entry();
      var span := Span(bars);
      var lead, trail := Lead(gap, span, bar), Trail(gap, span, cutoff, bar);
      UnionsAssociate(Ranges(before), {span}, IfWellOrdered(lead), IfWellOrdered(trail));
      hide IfWellOrdered;
      WriteChunk(span, bars);
      StillClear(before, Entry(), {}, gap, span);
      RecordPiece(M.Chunk(M.ChunkFile(span), span, M.Bars));
      if lead.lo <= lead.hi { StillClear(before, Entry(), {span}, gap, lead); }
      RecordHole(lead);
      if trail.lo <= trail.hi {
        TrailIsApart(gap, span, cutoff, bar);
        StillClear(before, Entry(), {span} + IfWellOrdered(lead), gap, trail);
      }
      RecordHole(trail);
    }

    /** In a regular cache whose manifest is saved, a clear gap is clear ahead. */
    lemma RegularGapIsClearAhead(gap: Range)
      requires Valid() && regular && running && saved == manifest.entries
      requires gap.lo <= gap.hi && RangeOnGrid(gap, bar, phase) && ClearOf(Entry(), gap)
      ensures Gridded(venue, bar, phase) && ValidOnGrid(Entry(), bar, phase) && ClearAhead(Entry(), gap, bar)
    {
      NowIsTidy();
      ValidIsSafe();
      hide M.Series, M.Valid, OnGrid, Slice;
      TrueRangesAreWellOrdered(venue, files, Entry());
      ClearIsClearAhead(Entry(), gap, bar, phase);
    }

    /** Every batch a lawful connector flushes extends a gap-free run, in the place of its gap if it clips. */
    lemma NextPage(gap: Range, cutoff: int, fetch: (int, int) -> Fetch, i: nat)
      requires Valid() && AllLawful(venue, bar, cutoff, fetch) && i < |fetch(FetchFrom(gap, bar), FetchTo(gap)).pages|
      requires regular ==> bar > 0 && RangeOnGrid(gap, bar, phase) && Clipped(fetch, bar)
      ensures var pages := fetch(FetchFrom(gap, bar), FetchTo(gap)).pages;
              && Flat(pages[..i + 1]) == Flat(pages[..i]) + pages[i] && GapFree(Flat(pages[..i + 1]), venue)
              && (regular ==> InPlace(pages[i], gap, bar))
    {
      var f := fetch(FetchFrom(gap, bar), FetchTo(gap));
      assert Lawful(venue, bar, cutoff, gap, f);
      assert History(venue, bar) && (regular ==> Gridded(venue, bar, phase));
      hide Valid, AllLawful, FetchFrom, FetchTo, Complete, OnGrid, Clipped, InPlace, Gridded, GapFree;
      FlatStep(f.pages, i);
      assert GapFree(Flat(f.pages[..i + 1]), venue);
      if regular { PageIsInPlace(venue, bar, phase, fetch, gap, i); }
    }

    /** Journal every batch the fetch flushed. */
    method Journal(gap: Range, cutoff: int, fetch: (int, int) -> Fetch)
      requires Valid() && running && AllLawful(venue, bar, cutoff, fetch)
      requires regular ==> bar > 0 && journals == map[] && RangeOnGrid(gap, bar, phase) && Clipped(fetch, bar)
      requires regular ==> ClearAhead(M.Series(saved, key), gap, bar)
      modifies this`journals, this`acts
      ensures Valid() && journals == old(journals)[gap := Flushed(fetch, gap, bar)]
    {
      ghost var before := journals;
      hide Valid, M.Series, ClearAhead, AllLawful, FetchFrom, FetchTo, GapFree, OnGrid, Clipped, InPlace, Flat;
      var pages := fetch(FetchFrom(gap, bar), FetchTo(gap)).pages;
      StartJournal(gap);
      assert Flat(pages[..0]) == [] by { NothingFlat(); }
      for i := 0 to |pages|
        invariant Valid() && gap in journals && journals == before[gap := Flat(pages[..i])]
      {
        NextPage(gap, cutoff, fetch, i);
        AppendJournal(gap, pages[i]);
      }
      assert pages[..|pages|] == pages;
    }

    /** Record what a completed fetch kept, drop the journal, save. */
    method FinishGap(gap: Range, kept: seq<Bar>, cutoff: int)
      requires Valid() && running && Truthful(venue, gap, kept, cutoff, bar) && AllFrom(kept, venue) && ClearOf(Entry(), gap)
      requires regular ==> bar > 0 && Gridded(venue, bar, phase) && ValidOnGrid(Entry(), bar, phase) && journals.Keys == {gap}
      requires regular ==> RangeOnGrid(gap, bar, phase) && OnGrid(cutoff, bar, phase)
      modifies manifest`entries, this`files, this`journals, this`saved, this`acts
      ensures Valid() && saved == manifest.entries && journals == old(journals) - {gap}
      ensures Ranges(Entry()) == Ranges(old(Entry())) + RangesOf(Pieces(gap, kept, cutoff, bar))
      ensures M.Valid(old(Entry())) ==> M.Valid(Entry())
    {
      hide Valid, M.Valid, M.Series, ClearOf, Ranges, RangesOf, Pieces, Truthful, AllFrom, RangeOnGrid, AllOnGrid, OnGrid;
      ghost var before := Entry();
      RecordFetchedGap(gap, kept, cutoff);
      DropJournal(gap);
      if regular { PiecesKeepGrid(venue, before, Entry(), gap, kept, cutoff, bar, phase); }
      Save();
    }

    /**
     * Fetch one gap, journaling every flushed batch. A completed fetch records its pieces and drops
     * the journal; an aborted one records nothing and leaves the journal with all that was flushed.
     */
    method FetchGap(gap: Range, cutoff: int, fetch: (int, int) -> Fetch) returns (ok: bool)
      requires Valid() && running && saved == manifest.entries && AllLawful(venue, bar, cutoff, fetch) && ClearOf(Entry(), gap)
      requires regular ==> journals == map[] && gap.lo <= gap.hi && RangeOnGrid(gap, bar, phase)
      requires regular ==> bar > 0 && OnGrid(cutoff, bar, phase) && Clipped(fetch, bar)
      modifies manifest`entries, this`files, this`journals, this`saved, this`acts
      ensures Valid() && saved == manifest.entries
      ensures ok == !fetch(FetchFrom(gap, bar), FetchTo(gap)).aborted
      ensures ok ==> GapAnswered(venue, bar, cutoff, fetch, gap)
      ensures journals == if ok then old(journals) - {gap} else old(journals)[gap := Flushed(fetch, gap, bar)]
      ensures Ranges(Entry()) == Ranges(old(Entry())) + if ok then RangesOf(PiecesOf(fetch, gap, cutoff, bar)) else {}
      ensures M.Valid(old(Entry())) ==> M.Valid(Entry())
    {
      if regular { RegularGapIsClearAhead(gap); }
      hide Valid, M.Valid, ClearOf, Ranges, RangesOf, AllLawful, M.Series, RangeOnGrid, OnGrid, Clipped, Flushed, ClearAhead, ValidOnGrid,
        Gridded, Pieces, GapAnswered, Truthful, Kept, AllFrom;
      Journal(gap, cutoff, fetch);
      var f := fetch(FetchFrom(gap, bar), FetchTo(gap));
      hide FetchFrom, FetchTo;
      if f.aborted {
        Save();
        return false;
      }
      KeptIsLawful(gap, cutoff, fetch);
      FinishGap(gap, Kept(f, gap), cutoff);
      return true;
    }

    /** What is kept of a completed fetch is the venue's history there. */
    lemma KeptIsLawful(gap: Range, cutoff: int, fetch: (int, int) -> Fetch)
      requires Valid() && AllLawful(venue, bar, cutoff, fetch) && !fetch(FetchFrom(gap, bar), FetchTo(gap)).aborted
      ensures Truthful(venue, gap, KeptOf(fetch, gap, bar), cutoff, bar) && AllFrom(KeptOf(fetch, gap, bar), venue)
      ensures GapAnswered(venue, bar, cutoff, fetch, gap)
    {
      var f := fetch(FetchFrom(gap, bar), FetchTo(gap));
      assert Lawful(venue, bar, cutoff, gap, f);
      assert History(venue, bar);
      hide Valid, AllLawful, FetchFrom, FetchTo, Complete, GapFree, Truthful, Kept, AllFrom;
      KeptIsTruthful(venue, bar, cutoff, gap, f);
      KeptFromVenue(venue, bar, gap, f);
    }

    /**
     * Turn every journal a previous run left into a chunk, recorded unless it overlaps what is; in
     * whatever order the journals are found.
     */
    method RecoverOrphans() returns (ghost order: seq<Range>)
      requires Valid() && running && saved == manifest.entries
      modifies manifest`entries, this`files, this`journals, this`saved, this`acts
      ensures Valid() && journals == map[] && saved == manifest.entries
      ensures Recovered(venue, old(Entry()), Entry())
      ensures Lists(order, old(journals)) && M.Aligned(old(Entry()))
      ensures Entry() == RecoveredAll(old(Entry()), RunsOf(old(journals), order))
      ensures old(journals) == map[] ==> manifest.entries == old(manifest.entries)
    {
      ghost var found, before := journals, Entry();
      assert M.Aligned(before) && (regular ==> ValidOnGrid(before, bar, phase)) by {
        ValidIsSafe();
        if regular { NowIsTidy(); }
      }
      hide Valid, M.Series, M.Valid, RecoveredAll, Recovered, Recovering, ValidOnGrid, RunsOf, Lists;
      order := [];
      RecoveringStarts(venue, before, found);
      while journals != map[]
        invariant Valid() && running && Recovering(venue, before, found, order, journals, Entry()) && AloneOrDone()
        invariant found == map[] ==> journals == map[] && manifest.entries == old(manifest.entries)
        decreases |journals|
      {
        order := RecoverNext(before, found, order);
      }
      RecoveringEnds(venue, before, found, order, Entry());
      Save();
    }

    /** A regular cache has one journal at most, and stays regular once it is recovered. */
    ghost predicate AloneOrDone()
      reads this, manifest
    {
      regular ==> bar > 0 && ValidOnGrid(Entry(), bar, phase) && (manifest.entries == saved || journals == map[])
    }

    /** Recover one of the journals left. */
    method RecoverNext(ghost before: M.Entry, ghost found: map<Range, seq<Bar>>, ghost order: seq<Range>) returns (ghost more: seq<Range>)
      requires Valid() && running && journals != map[] && Recovering(venue, before, found, order, journals, Entry()) && AloneOrDone()
      modifies manifest`entries, this`files, this`journals, this`acts
      ensures Valid() && Recovering(venue, before, found, more, journals, Entry()) && AloneOrDone()
      ensures |journals| < |old(journals)| && forall g :: g in journals ==> g in old(journals)
    {
      hide Valid, M.Series, M.Valid, ValidOnGrid, RecoveredFrom, Recovered, Recovering;
      var gap :| gap in journals;
      ghost var mid, left := Entry(), journals;
      if regular { RegularJournal(gap); }
      RecoverOne(gap);
      RecoveringStep(venue, before, found, order, left, mid, gap, Entry());
      more := order + [gap];
      assert left.Keys == journals.Keys + {gap};
    }

    /** The journal of a regular cache is alone, and its recovery leaves the series regular. */
    lemma RegularJournal(gap: Range)
      requires Valid() && regular && running && saved == manifest.entries && gap in journals
      ensures M.Aligned(Entry()) && bar > 0
      ensures ValidOnGrid(RecoveredFrom(Entry(), journals[gap]), bar, phase) && journals - {gap} == map[]
    {
      NowIsTidy();
      ValidIsSafe();
      hide M.Series, M.Valid, OnGrid, Slice, RecoveredFrom;
      TrueRangesAreWellOrdered(venue, files, Entry());
      AlignedWhenTrue(venue, files, Entry());
      assert GapFree(journals[gap], venue);
      TidyRecoveryIsRegular(venue, Entry(), journals[gap], gap, bar, phase);
    }

    /** Write a recovered run and record it; a range that overlaps what is recorded is left out. */
    method RecoverRun(run: seq<Bar>)
      requires Valid() && running && M.Aligned(Entry()) && Collected(run) != [] && AllFrom(Collected(run), venue)
      requires Collected(run) == Slice(venue, Span(Collected(run))) && Span(Collected(run)).lo <= Span(Collected(run)).hi
      modifies manifest`entries, this`files, this`acts
      ensures Valid() && Entry() == RecoveredFrom(old(Entry()), run) && Recovered(venue, old(Entry()), Entry())
      ensures ChunkOf(run).range in files && files[ChunkOf(run).range] == Collected(run)
    {
      hide Valid, Slice, M.Series, Recovered, Stamped, M.Inserted, M.Accepts, Entry, Collected;
      ghost var before := Entry();
      var bars := Collected(run);
      var span := Span(bars);
      SpanIsStamped(venue, bars);
      RecoveredItself(venue, before);
      hide AllFrom;
      WriteChunk(span, bars);
      var c := M.Chunk(M.ChunkFile(span), span, M.Bars);
      var ok := Record(c);
      RecoveredStep(venue, before, before, c, ok, Entry());
    }

    method RecoverOne(gap: Range)
      requires Valid() && running && gap in journals
      modifies manifest`entries, this`files, this`journals, this`acts
      ensures Valid() && journals == old(journals) - {gap} && M.Aligned(old(Entry()))
      ensures Entry() == RecoveredFrom(old(Entry()), old(journals)[gap]) && Recovered(venue, old(Entry()), Entry())
    {
      ghost var run := journals[gap];
      var bars := Collected(journals[gap]);
      assert M.Aligned(Entry()) && AllFrom(bars, venue) && (bars != [] ==> bars == Slice(venue, Span(bars)) && Span(bars).lo <= Span(bars).hi) by {
        hide Slice, M.Series, Collected;
        ValidIsSafe();
        RunIsSlice(venue, bar, journals[gap]);
      }
      RecoveredItself(venue, Entry());
      hide Valid, Slice, M.Series, Collected, Recovered, Entry, M.Inserted;
      if bars != [] {
        RecoverRun(journals[gap]);
      }
      DropJournal(gap);
    }

    // -------------------------------------------------------------- a whole load

    /** Fetch the gaps in order; stop at the first aborted one, keeping what was recorded before it. */
    method FetchAll(gaps: seq<Range>, window: Range, cutoff: int, fetch: (int, int) -> Fetch) returns (ok: bool, ghost done: nat)
      requires Valid() && running && saved == manifest.entries && journals == map[] && AllLawful(venue, bar, cutoff, fetch)
      requires gaps == Planned(Entry().ranges, window, bar)
      requires regular ==> bar > 0 && RangeOnGrid(window, bar, phase) && OnGrid(cutoff, bar, phase) && Clipped(fetch, bar)
      modifies manifest`entries, this`files, this`journals, this`saved, this`acts
      ensures Valid() && saved == manifest.entries
      ensures if ok then journals == map[] else done < |gaps| && LeftBehind(fetch, gaps[done], bar, journals)
      ensures done <= |gaps| && (ok ==> done == |gaps|) && AllAnswered(venue, bar, cutoff, fetch, gaps[..done])
      ensures GrownBy(old(Entry()), Entry(), gaps[..done], fetch, cutoff, bar)
      ensures M.Valid(old(Entry())) ==> M.Valid(Entry())
    {
      ghost var before := Entry();
      assert AllWellOrdered(before.ranges) && History(venue, bar) by {
        hide M.Series, Slice;
        ValidIsSafe();
        TrueRangesAreWellOrdered(venue, files, before);
      }
      assert regular ==> forall g :: g in gaps ==> g.lo <= g.hi && RangeOnGrid(g, bar, phase) by {
        if regular {
          NowIsTidy();
          hide M.Series, M.Valid, OnGrid, Planned;
          PlannedGapsOnGrid(before.ranges, window, bar, phase);
        }
      }
      hide Valid, M.Valid, M.Series, Entry, Planned, AllLawful, GapAnswered, ClearOf, GrownBy, RangesOf, PiecesOf, Ranges, OnGrid, Clipped, Flushed;
      done := 0;
      GrownByNothing(before, fetch, cutoff, bar);
      assert gaps[..0] == [];
      for k := 0 to |gaps|
        invariant Valid() && running && saved == manifest.entries && journals == map[] && done == k
        invariant AllAnswered(venue, bar, cutoff, fetch, gaps[..k])
        invariant GrownBy(before, Entry(), gaps[..k], fetch, cutoff, bar)
        invariant M.Valid(before) ==> M.Valid(Entry())
      {
        NextGapIsClear(venue, before, Entry(), gaps, window, k, fetch, cutoff, bar);
        ghost var mid := Entry();
        ok := FetchGap(gaps[k], cutoff, fetch);
        if !ok {
          SameRangesGrowAlike(before, mid, Entry(), gaps[..k], fetch, cutoff, bar);
          return false, k;
        }
        GrownByStep(before, mid, Entry(), gaps[..k], gaps[k], fetch, cutoff, bar);
        PrefixStep(gaps, k);
        done := k + 1;
      }
      assert gaps[..|gaps|] == gaps;
      return true, |gaps|;
    }

    /** Read every chunk of bars that meets the window; sort, deduplicate and clip. */
    method Assemble(window: Range) returns (bars: seq<Bar>)
      requires Valid() && running
      ensures bars == Visible(venue, Entry(), window)
    {
      var e := M.Series(manifest.entries, key);
      assert History(venue, bar) && FilesTrue(venue, files) && EntryTrue(venue, files, e) by { ValidIsSafe(); }
      hide Valid, M.Series, Slice, Collected, Visible;
      var chunks := M.Chunks(e);
      var out: seq<Bar> := [];
      for i := 0 to |chunks|
        invariant out == Read(files, chunks[..i], window)
      {
        PrefixStep(chunks, i);
        var c := chunks[i];
        if c.coverage.Bars? && c.range.Meets(window) && c.range in files {
          out := out + files[c.range];
        }
      }
      assert chunks[..|chunks|] == chunks;
      AssembledIsVisible(venue, bar, files, e, window);
      bars := Filter(Collected(out), Within(window));
    }

    /** Load the manifest and finish what an interrupted run left. */
    method Prepare() returns (ghost order: seq<Range>)
      requires Valid()
      modifies this
      ensures Valid() && running && fresh(manifest) && saved == manifest.entries && journals == map[]
      ensures Recovered(venue, M.Series(old(saved), key), Entry())
      ensures Resumed(M.Series(old(saved), key), old(journals), order, Entry())
    {
      assert AllWellOrdered(M.Series(saved, key).ranges) by {
        hide M.Series, Slice;
        ValidIsSafe();
        TrueRangesAreWellOrdered(venue, files, M.Series(saved, key));
      }
      hide Valid, M.Series, Recovered, RecoveredAll, Resumed, RunsOf, Lists;
      ghost var found, journaled := M.Series(saved, key), journals;
      Open();
      order := RecoverOrphans();
      ResumedFrom(found, journaled, order, Entry());
    }

    /** Plan the window over the recorded ranges and fetch what is missing. */
    method FetchWindow(window: Range, cutoff: int, fetch: (int, int) -> Fetch, ghost found: M.Entry) returns (ok: bool)
      requires Valid() && running && saved == manifest.entries && journals == map[] && AllLawful(venue, bar, cutoff, fetch)
      requires Recovered(venue, found, Entry())
      requires regular ==> bar > 0 && RangeOnGrid(window, bar, phase) && OnGrid(cutoff, bar, phase) && Clipped(fetch, bar)
      modifies manifest`entries, this`files, this`journals, this`saved, this`acts
      ensures Valid() && saved == manifest.entries
      ensures ok ==> journals == map[] && bar > 0 && Delivers(venue, found, old(Entry()), Entry(), window, fetch, cutoff, bar, phase)
      ensures !ok ==> exists g :: g in Planned(old(Entry()).ranges, window, bar) && LeftBehind(fetch, g, bar, journals)
      ensures M.Valid(old(Entry())) ==> M.Valid(Entry())
    {
      assert bar > 0 && History(venue, bar);
      hide Valid, M.Valid, M.Series, Planned, AllLawful, GrownBy, Recovered, AllAnswered, Delivers, History, OnGrid, Clipped, LeftBehind;
      ghost var before := Entry();
      var gaps := MissingGaps(M.Series(manifest.entries, key).ranges, window, bar);
      ghost var done;
      ok, done := FetchAll(gaps, window, cutoff, fetch);
      if ok {
        assert gaps[..|gaps|] == gaps;
        LoadGuarantees(venue, found, before, Entry(), window, gaps, fetch, cutoff, bar, phase);
      } else {
        assert gaps[done] in gaps;
      }
    }

    /**
     * Load the window: recover, plan, fetch, assemble. `before` is the series as planned over, that
     * is, with the journals found recovered in `order`; it validates exactly when each was harmless,
     * and if it does so does the series saved. The result is exactly the venue's bars of the window
     * in recorded ranges; an aborted load leaves the journal of the gap it was fetching.
     */
    method LoadBars(startMs: int, endMs: int, nowMs: int, fetch: (int, int) -> Fetch)
      returns (r: Option<seq<Bar>>, ghost before: M.Entry, ghost order: seq<Range>)
      requires Valid() && AllLawful(venue, bar, nowMs * NANOS_PER_MILLI - bar, fetch)
      requires regular ==> bar > 0 && RangeOnGrid(Window(startMs, endMs), bar, phase) && OnGrid(nowMs * NANOS_PER_MILLI - bar, bar, phase)
      requires regular ==> Clipped(fetch, bar)
      modifies this
      ensures Valid() && fresh(manifest) && saved == manifest.entries
      ensures Recovered(venue, M.Series(old(saved), key), before)
      ensures Resumed(M.Series(old(saved), key), old(journals), order, before)
      ensures M.Valid(before) || regular ==> M.Valid(M.Series(saved, key))
      ensures r.Some? ==> journals == map[] && r.value == Visible(venue, M.Series(saved, key), Window(startMs, endMs))
      ensures r.Some? ==> bar > 0 && Delivers(venue, M.Series(old(saved), key), before, M.Series(saved, key), Window(startMs, endMs),
                                              fetch, nowMs * NANOS_PER_MILLI - bar, bar, phase)
      ensures r.None? ==> exists g :: g in Planned(before.ranges, Window(startMs, endMs), bar) && LeftBehind(fetch, g, bar, journals)
    {
      hide Valid, M.Valid, M.Series, Planned, AllLawful, GrownBy, Recovered, Visible, AllAnswered, Delivers, History, Window, OnGrid, Clipped,
        LeftBehind, Resumed;
      ghost var found := M.Series(saved, key);
      order := Prepare();
      before := Entry();
      var window := Window(startMs, endMs);
      var ok := FetchWindow(window, nowMs * NANOS_PER_MILLI - bar, fetch, found);
      if regular { SavedIsValid(); }
      if !ok {
        return None, before, order;
      }
      var bars := Assemble(window);
      return Some(bars), before, order;
    }

    lemma SavedIsValid()
      requires Valid() && regular
      ensures M.Valid(M.Series(saved, key))
    {
      hide M.Series, M.Valid;
      NowIsTidy();
    }
  }
}
