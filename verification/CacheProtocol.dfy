/**
 * The cache directory of one series as a state machine over its disk operations. The loader's
 * runs, cut off by a crash after any operation and started again, are runs of this machine; in
 * every state it reaches, what the manifest records is true of the venue and backed by files.
 */
module CacheProtocol {
  import opened Prelude
  import opened Trading
  import opened Gap
  import opened BarSets
  import M = Manifest

  /** Chunk files by range, journals by the gap they were opened for, the saved and the working manifest. */
  datatype State = State(
    files: map<Range, seq<Bar>>,
    journals: map<Range, seq<Bar>>,
    saved: seq<M.Entry>,
    working: Option<seq<M.Entry>>)

  /** The venue's history of the series: one bar per close stamp, each opened at or after the epoch. */
  ghost predicate History(venue: seq<Bar>, bar: int) {
    bar > 0 && StrictlyAscending(venue) && forall b :: b in venue ==> b.ts >= bar
  }

  /** A downloaded run: bars of the venue with none missing between them. */
  ghost predicate GapFree(bars: seq<Bar>, venue: seq<Bar>) {
    && AllFrom(bars, venue)
    && forall a, b, c :: a in bars && c in bars && b in venue && a.ts <= b.ts <= c.ts ==> b in bars
  }

  ghost predicate ChunkTrue(venue: seq<Bar>, files: map<Range, seq<Bar>>, c: M.Chunk) {
    && c.range.lo <= c.range.hi
    && match c.coverage
       case Bars => c.file == M.ChunkFile(c.range) && c.range in files
       case EmptyVerified => Slice(venue, c.range) == []
  }

  /** Everything the entry says is so, and every chunk of bars has its file. */
  ghost predicate EntryTrue(venue: seq<Bar>, files: map<Range, seq<Bar>>, e: M.Entry) {
    M.Aligned(e) && forall c :: c in M.Chunks(e) ==> ChunkTrue(venue, files, c)
  }

  ghost predicate FilesTrue(venue: seq<Bar>, files: map<Range, seq<Bar>>) {
    forall r :: r in files ==> files[r] == Slice(venue, r)
  }

  ghost predicate Safe(venue: seq<Bar>, key: M.Key, s: State) {
    && FilesTrue(venue, s.files)
    && (forall g :: g in s.journals ==> GapFree(s.journals[g], venue))
    && EntryTrue(venue, s.files, M.Series(s.saved, key))
    && (s.working.Some? ==> EntryTrue(venue, s.files, M.Series(s.working.value, key)))
  }

  // ---------------------------------------------------------------- operations

  datatype Act =
    | Open
    | StartJournal(gap: Range)
    | AppendJournal(gap: Range, page: seq<Bar>)
    | DropJournal(gap: Range)
    | WriteChunk(range: Range, bars: seq<Bar>)
    | Record(chunk: M.Chunk)
    | Save
    | Crash

  function Recorded(entries: seq<M.Entry>, key: M.Key, c: M.Chunk): seq<M.Entry>
    requires M.Aligned(M.Series(entries, key))
  {
    var e := M.Series(entries, key);
    if M.Accepts(e, c.range) then M.Updated(entries, M.Inserted(e, c)) else entries
  }

  /** What the loader has established before it performs the operation. */
  ghost predicate Enabled(venue: seq<Bar>, key: M.Key, s: State, a: Act) {
    match a
    case Open => true
    case StartJournal(_) => true
    case AppendJournal(gap, page) => gap in s.journals && GapFree(s.journals[gap] + page, venue)
    case DropJournal(_) => true
    case WriteChunk(range, bars) => bars == Slice(venue, range)
    case Record(c) => s.working.Some? && M.Aligned(M.Series(s.working.value, key)) && ChunkTrue(venue, s.files, c)
    case Save => s.working.Some?
    case Crash => true
  }

  ghost function Performed(venue: seq<Bar>, key: M.Key, s: State, a: Act): State
    requires Enabled(venue, key, s, a)
  {
    match a
    case Open => s.(working := Some(s.saved))
    case StartJournal(gap) => s.(journals := s.journals[gap := []])
    case AppendJournal(gap, page) => s.(journals := s.journals[gap := s.journals[gap] + page])
    case DropJournal(gap) => s.(journals := s.journals - {gap})
    case WriteChunk(range, bars) => s.(files := s.files[range := bars])
    case Record(c) => s.(working := Some(Recorded(s.working.value, key, c)))
    case Save => s.(saved := s.working.value)
    case Crash => s.(working := None)
  }

  /** The state reached by a run, or None when some operation was not established. */
  ghost function Reached(venue: seq<Bar>, key: M.Key, start: State, acts: seq<Act>): Option<State> {
    if acts == [] then
      Some(start)
    else
      match Reached(venue, key, start, acts[..|acts| - 1])
      case None => None
      case Some(s) =>
        var a := acts[|acts| - 1];
        if Enabled(venue, key, s, a) then Some(Performed(venue, key, s, a)) else None
  }

  // ---------------------------------------------------------------- every reachable state is safe

  lemma GrownFilesKeepEntry(venue: seq<Bar>, files: map<Range, seq<Bar>>, more: map<Range, seq<Bar>>, e: M.Entry)
    requires EntryTrue(venue, files, e) && forall r :: r in files ==> r in more
    ensures EntryTrue(venue, more, e)
  {
    forall c | c in M.Chunks(e) ensures ChunkTrue(venue, more, c) {
      assert ChunkTrue(venue, files, c);
    }
  }

  lemma RecordingKeepsTruth(venue: seq<Bar>, files: map<Range, seq<Bar>>, entries: seq<M.Entry>, key: M.Key, c: M.Chunk)
    requires EntryTrue(venue, files, M.Series(entries, key)) && ChunkTrue(venue, files, c)
    ensures EntryTrue(venue, files, M.Series(Recorded(entries, key, c), key))
  {
    var e := M.Series(entries, key);
    if M.Accepts(e, c.range) {
      InsertedMembers(e, c);
      SeriesKey(entries, key);
      M.UpdatedSeries(entries, M.Inserted(e, c), key);
    }
  }

  lemma SeriesKey(entries: seq<M.Entry>, key: M.Key)
    ensures M.Series(entries, key).key == key
  {
  }

  lemma InsertedMembers(e: M.Entry, c: M.Chunk)
    requires M.Aligned(e)
    ensures M.Aligned(M.Inserted(e, c))
    ensures forall d :: d in M.Chunks(M.Inserted(e, c)) <==> d == c || d in M.Chunks(e)
    ensures forall r :: r in M.Inserted(e, c).ranges <==> r == c.range || r in e.ranges
  {
    M.InsertedChunks(e, c);
    M.InsertedShape(e, c);
    var at := M.InsertionPoint(e.ranges, c.range.lo);
    M.InsertAtFacts(M.Chunks(e), at, c);
    M.InsertAtFacts(e.ranges, at, c.range);
    hide M.Inserted, M.InsertAt, M.Chunks;
  }

  lemma PerformingStaysSafe(venue: seq<Bar>, key: M.Key, s: State, a: Act)
    requires Safe(venue, key, s) && Enabled(venue, key, s, a)
    ensures Safe(venue, key, Performed(venue, key, s, a))
  {
    hide M.Series, Slice, ChunkTrue;
    match a
    case WriteChunk(range, bars) =>
      var more := s.files[range := bars];
      hide EntryTrue;
      GrownFilesKeepEntry(venue, s.files, more, M.Series(s.saved, key));
      if s.working.Some? { GrownFilesKeepEntry(venue, s.files, more, M.Series(s.working.value, key)); }
    case Record(c) =>
      RecordingKeepsTruth(venue, s.files, s.working.value, key, c);
    case StartJournal(gap) =>
      assert GapFree([], venue);
    case AppendJournal(_, _) =>
    case DropJournal(_) =>
    case Open =>
    case Save =>
    case Crash =>
  }

  /** Over any run of loads, aborted fetches and crashes, nothing false is ever recorded. */
  lemma {:induction false} EveryReachedStateIsSafe(venue: seq<Bar>, key: M.Key, start: State, acts: seq<Act>)
    requires Safe(venue, key, start) && Reached(venue, key, start, acts).Some?
    ensures Safe(venue, key, Reached(venue, key, start, acts).value)
  {
    if acts != [] {
      hide Safe, Enabled, Performed;
      EveryReachedStateIsSafe(venue, key, start, acts[..|acts| - 1]);
      PerformingStaysSafe(venue, key, Reached(venue, key, start, acts[..|acts| - 1]).value, acts[|acts| - 1]);
    }
  }

  lemma {:induction false} ReachedExtends(venue: seq<Bar>, key: M.Key, start: State, acts: seq<Act>, a: Act)
    requires Reached(venue, key, start, acts).Some? && Enabled(venue, key, Reached(venue, key, start, acts).value, a)
    ensures Reached(venue, key, start, acts + [a]) == Some(Performed(venue, key, Reached(venue, key, start, acts).value, a))
  {
    hide Enabled, Performed;
    assert (acts + [a])[..|acts|] == acts;
  }

  // ---------------------------------------------------------------- what is read back

  /** The stamp lies in a recorded range. */
  ghost predicate Known(e: M.Entry, ts: int) {
    exists r :: r in e.ranges && r.Has(ts)
  }

  /** The venue's bars of the window that lie in recorded ranges. */
  ghost function Visible(venue: seq<Bar>, e: M.Entry, window: Range): seq<Bar> {
    Filter(venue, (b: Bar) => window.Has(b.ts) && Known(e, b.ts))
  }
}
