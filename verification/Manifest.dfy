/**
 * The cache manifest: per series, parallel vectors of chunk files, chunk ranges and chunk
 * coverage, kept sorted by range start. Recording a chunk inserts it in place or rejects it.
 */
module Manifest {
  import opened Prelude
  import opened Gap

  datatype Coverage = Bars | EmptyVerified

  datatype Key = Key(venue: string, symbol: string, interval: string)

  /** A chunk file is named after its series and the first and last stamp it holds. */
  datatype File = NoFile | ChunkFile(range: Range)

  datatype Entry = Entry(key: Key, files: seq<File>, ranges: seq<Range>, coverage: seq<Coverage>, lastClose: int)

  datatype Chunk = Chunk(file: File, range: Range, coverage: Coverage)

  const MANIFEST_VERSION: nat := 2

  // ---------------------------------------------------------------- one series

  predicate Aligned(e: Entry) {
    |e.files| == |e.ranges| == |e.coverage|
  }

  /** Chunk i is file i, range i and coverage i. */
  function Chunks(e: Entry): seq<Chunk>
    requires Aligned(e)
  {
    seq(|e.ranges|, i requires 0 <= i < |e.ranges| => Chunk(e.files[i], e.ranges[i], e.coverage[i]))
  }

  /** The ranges share more than a boundary stamp. */
  predicate Overlap(r: Range, s: Range) {
    Max(r.lo, s.lo) < Min(r.hi, s.hi)
  }

  predicate Accepts(e: Entry, range: Range) {
    range.lo <= range.hi && forall r :: r in e.ranges ==> !Overlap(range, r)
  }

  /** Where a range starting at lo is inserted: before the first range that does not start earlier. */
  function InsertionPoint(ranges: seq<Range>, lo: int): (at: nat)
    ensures at <= |ranges|
    ensures forall i :: 0 <= i < at ==> ranges[i].lo < lo
    ensures at < |ranges| ==> ranges[at].lo >= lo
  {
    if ranges == [] || ranges[0].lo >= lo then 0 else InsertionPoint(ranges[1..], lo) + 1
  }

  function InsertAt<T>(s: seq<T>, at: nat, x: T): seq<T>
    requires at <= |s|
  {
    s[..at] + [x] + s[at..]
  }

  function Inserted(e: Entry, c: Chunk): Entry
    requires Aligned(e)
  {
    var at := InsertionPoint(e.ranges, c.range.lo);
    e.(files := InsertAt(e.files, at, c.file),
       ranges := InsertAt(e.ranges, at, c.range),
       coverage := InsertAt(e.coverage, at, c.coverage),
       lastClose := Max(e.lastClose, c.range.hi))
  }

  /** What validation checks of a series: aligned vectors, ranges in order, sharing boundaries at most. */
  predicate Valid(e: Entry) {
    Aligned(e) && forall i :: 0 < i < |e.ranges| ==> e.ranges[i].lo >= e.ranges[i - 1].hi
  }

  /** The last close is at or past the end of every range. */
  ghost predicate LastCloseBounds(e: Entry) {
    forall r :: r in e.ranges ==> r.hi <= e.lastClose
  }

  lemma InsertAtFacts<T>(s: seq<T>, at: nat, x: T)
    requires at <= |s|
    ensures multiset(InsertAt(s, at, x)) == multiset(s) + multiset{x}
    ensures forall y :: y in InsertAt(s, at, x) <==> y == x || y in s
  {
    assert s == s[..at] + s[at..];
    var t := InsertAt(s, at, x);
    assert t[at] == x;
    assert forall i :: 0 <= i < |s| ==> s[i] == t[if i < at then i else i + 1];
  }

  lemma InsertAtIndex<T>(s: seq<T>, at: nat, x: T, i: nat)
    requires at <= |s| && i <= |s|
    ensures InsertAt(s, at, x)[i] == if i < at then s[i] else if i == at then x else s[i - 1]
  {
  }

  lemma InsertedKeepsOrder(s: seq<Range>, r: Range)
    requires LoSorted(s)
    ensures LoSorted(InsertAt(s, InsertionPoint(s, r.lo), r))
  {
    hide InsertionPoint;
    var at := InsertionPoint(s, r.lo);
    var t := InsertAt(s, at, r);
    forall i, j | 0 <= i < j < |t| ensures t[i].lo <= t[j].lo {
      InsertAtIndex(s, at, r, i);
      InsertAtIndex(s, at, r, j);
      if i == at && at < j - 1 { assert s[at].lo <= s[j - 1].lo; }
    }
  }

  lemma InsertedShape(e: Entry, c: Chunk)
    requires Aligned(e)
    ensures Aligned(Inserted(e, c)) && Inserted(e, c).ranges == InsertAt(e.ranges, InsertionPoint(e.ranges, c.range.lo), c.range)
  {
    hide InsertionPoint;
  }

  lemma InsertedZips(e: Entry, c: Chunk)
    requires Aligned(e)
    ensures Aligned(Inserted(e, c)) && Chunks(Inserted(e, c)) == InsertAt(Chunks(e), InsertionPoint(e.ranges, c.range.lo), c)
  {
    hide InsertionPoint;
    var at, f := InsertionPoint(e.ranges, c.range.lo), Inserted(e, c);
    forall i: nat | i <= |e.ranges| ensures Chunks(f)[i] == InsertAt(Chunks(e), at, c)[i] {
      InsertAtIndex(e.files, at, c.file, i);
      InsertAtIndex(e.ranges, at, c.range, i);
      InsertAtIndex(e.coverage, at, c.coverage, i);
      InsertAtIndex(Chunks(e), at, c, i);
    }
  }

  lemma InsertedClose(e: Entry, c: Chunk)
    requires Aligned(e) && LastCloseBounds(e)
    ensures LastCloseBounds(Inserted(e, c))
  {
    InsertAtFacts(e.ranges, InsertionPoint(e.ranges, c.range.lo), c.range);
    hide InsertAt, InsertionPoint;
  }

  /** Inserting adds exactly the new chunk, in its place, and keeps the vectors aligned and ordered. */
  lemma InsertedChunks(e: Entry, c: Chunk)
    requires Aligned(e)
    ensures var f := Inserted(e, c);
            && Aligned(f)
            && Chunks(f) == InsertAt(Chunks(e), InsertionPoint(e.ranges, c.range.lo), c)
            && multiset(Chunks(f)) == multiset(Chunks(e)) + multiset{c}
            && (LoSorted(e.ranges) ==> LoSorted(f.ranges))
            && (LastCloseBounds(e) ==> LastCloseBounds(f))
  {
    ChunkPlace(e, c);
    hide InsertAt, InsertionPoint, LoSorted, Chunks, Inserted, LastCloseBounds;
    InsertedZips(e, c);
    InsertedShape(e, c);
    InsertAtFacts(Chunks(e), InsertionPoint(e.ranges, c.range.lo), c);
    if LoSorted(e.ranges) { InsertedKeepsOrder(e.ranges, c.range); }
    if LastCloseBounds(e) { InsertedClose(e, c); }
  }

  lemma ChunkPlace(e: Entry, c: Chunk)
    requires Aligned(e)
    ensures InsertionPoint(e.ranges, c.range.lo) <= |Chunks(e)| == |e.ranges|
  {
    hide InsertionPoint;
  }

  // ---------------------------------------------------------------- when recording keeps a series valid

  /** A single stamp strictly inside the other range, or at its start. */
  ghost predicate PointClash(range: Range, r: Range) {
    || (range.lo == range.hi && r.lo < range.lo < r.hi)
    || (r.lo == r.hi && range.lo <= r.lo < range.hi)
  }

  ghost predicate Clashes(ranges: seq<Range>, range: Range) {
    exists r :: r in ranges && PointClash(range, r)
  }

  /** Adjacent ranges share a boundary stamp at most. */
  ghost predicate Chained(ranges: seq<Range>) {
    forall k :: 0 < k < |ranges| ==> ranges[k].lo >= ranges[k - 1].hi
  }

  lemma {:induction false} ChainedIsPairwise(ranges: seq<Range>, i: nat, j: nat)
    requires AllWellOrdered(ranges) && Chained(ranges) && i < j < |ranges|
    ensures ranges[i].hi <= ranges[j].lo
    decreases j - i
  {
    if i < j - 1 {
      ChainedIsPairwise(ranges, i, j - 1);
      assert ranges[j - 1] in ranges;
    }
  }

  lemma NoClashAtNeighbours(ranges: seq<Range>, range: Range)
    requires AllWellOrdered(ranges) && range.lo <= range.hi
    requires (forall r :: r in ranges ==> !Overlap(range, r)) && !Clashes(ranges, range)
    ensures var at := InsertionPoint(ranges, range.lo);
            (at > 0 ==> ranges[at - 1].hi <= range.lo) && (at < |ranges| ==> range.hi <= ranges[at].lo)
  {
    hide InsertionPoint;
    var at := InsertionPoint(ranges, range.lo);
    if at > 0 { assert ranges[at - 1] in ranges && !PointClash(range, ranges[at - 1]); }
    if at < |ranges| { assert ranges[at] in ranges && !PointClash(range, ranges[at]); }
  }

  lemma WellOrderedAt(ranges: seq<Range>, i: nat)
    requires AllWellOrdered(ranges) && i < |ranges|
    ensures ranges[i].lo <= ranges[i].hi
  {
    assert ranges[i] in ranges;
  }

  lemma ClashAtNeighbours(ranges: seq<Range>, range: Range, k: nat)
    requires AllWellOrdered(ranges) && Chained(ranges) && range.lo <= range.hi
    requires k < |ranges| && PointClash(range, ranges[k])
    ensures var at := InsertionPoint(ranges, range.lo);
            (at > 0 && ranges[at - 1].hi > range.lo) || (at < |ranges| && range.hi > ranges[at].lo)
  {
    hide InsertionPoint, Chained, AllWellOrdered;
    var at := InsertionPoint(ranges, range.lo);
    if k < at - 1 {
      ChainedIsPairwise(ranges, k, at - 1);
    } else if at < k {
      ChainedIsPairwise(ranges, at, k);
      WellOrderedAt(ranges, at);
    }
  }

  lemma InsertChains(ranges: seq<Range>, at: nat, range: Range)
    requires Chained(ranges) && at <= |ranges|
    ensures Chained(InsertAt(ranges, at, range))
            <==> (at > 0 ==> ranges[at - 1].hi <= range.lo) && (at < |ranges| ==> range.hi <= ranges[at].lo)
  {
    var t := InsertAt(ranges, at, range);
    assert t[at] == range && (at > 0 ==> t[at - 1] == ranges[at - 1]) && (at < |ranges| ==> t[at + 1] == ranges[at]);
    forall k | 0 < k < |t| && k != at && k != at + 1 ensures t[k].lo >= t[k - 1].hi {
      assert t[k] == ranges[if k < at then k else k - 1];
    }
  }

  /**
   * Rejecting interior overlaps is almost enough: a recorded range leaves a valid series valid
   * exactly when no single stamp, old or new, lies inside the other range or opens it.
   */
  lemma RecordingStaysValid(e: Entry, c: Chunk)
    requires Valid(e) && AllWellOrdered(e.ranges) && Accepts(e, c.range)
    ensures Valid(Inserted(e, c)) <==> !Clashes(e.ranges, c.range)
  {
    hide InsertAt, InsertionPoint, PointClash, AllWellOrdered, Overlap;
    InsertedShape(e, c);
    InsertChains(e.ranges, InsertionPoint(e.ranges, c.range.lo), c.range);
    assert Chained(e.ranges);
    if Clashes(e.ranges, c.range) {
      var r :| r in e.ranges && PointClash(c.range, r);
      var k :| 0 <= k < |e.ranges| && e.ranges[k] == r;
      ClashAtNeighbours(e.ranges, c.range, k);
    } else {
      NoClashAtNeighbours(e.ranges, c.range);
    }
    assert Valid(Inserted(e, c)) <==> Chained(Inserted(e, c).ranges);
  }

  /** Ranges disjoint from everything cached, as the loader's are, always keep it valid. */
  lemma DisjointStaysValid(e: Entry, c: Chunk)
    requires Valid(e) && AllWellOrdered(e.ranges) && c.range.lo <= c.range.hi
    requires forall r :: r in e.ranges ==> c.range.hi < r.lo || r.hi < c.range.lo
    ensures Accepts(e, c.range) && Valid(Inserted(e, c))
  {
    RecordingStaysValid(e, c);
  }

  /** A range that starts on a single cached stamp is accepted, and the series then fails validation. */
  lemma AcceptedButInvalid(key: Key, x: int, y: int, file: File)
    requires x < y
    ensures var e := Entry(key, [file], [Range(x, x)], [Bars], x);
            var c := Chunk(file, Range(x, y), Bars);
            Valid(e) && Accepts(e, c.range) && !Valid(Inserted(e, c))
  {
    var e := Entry(key, [file], [Range(x, x)], [Bars], x);
    var c := Chunk(file, Range(x, y), Bars);
    assert PointClash(c.range, e.ranges[0]);
    RecordingStaysValid(e, c);
  }

  /** So is a single stamp strictly inside a cached range. */
  lemma PointAcceptedButInvalid(key: Key, lo: int, x: int, hi: int, file: File)
    requires lo < x < hi
    ensures var e := Entry(key, [file], [Range(lo, hi)], [Bars], hi);
            var c := Chunk(file, Range(x, x), Bars);
            Valid(e) && Accepts(e, c.range) && !Valid(Inserted(e, c))
  {
    var e := Entry(key, [file], [Range(lo, hi)], [Bars], hi);
    var c := Chunk(file, Range(x, x), Bars);
    assert PointClash(c.range, e.ranges[0]);
    RecordingStaysValid(e, c);
  }

  // ---------------------------------------------------------------- the manifest

  /** The position of the series in the manifest, or past its end. */
  function Find(entries: seq<Entry>, key: Key): (i: nat)
    ensures i <= |entries|
    ensures i < |entries| ==> entries[i].key == key
    ensures forall j :: 0 <= j < i ==> entries[j].key != key
  {
    if entries == [] || entries[0].key == key then 0 else Find(entries[1..], key) + 1
  }

  function NewSeries(key: Key): Entry {
    Entry(key, [], [], [], I64_MIN)
  }

  /** The series' entry, an empty one while it has none. */
  function Series(entries: seq<Entry>, key: Key): Entry {
    var i := Find(entries, key);
    if i < |entries| then entries[i] else NewSeries(key)
  }

  function Updated(entries: seq<Entry>, e: Entry): seq<Entry> {
    var i := Find(entries, e.key);
    if i < |entries| then entries[i := e] else entries + [e]
  }

  lemma {:induction false} UpdatedSeries(entries: seq<Entry>, e: Entry, key: Key)
    ensures Series(Updated(entries, e), key) == if key == e.key then e else Series(entries, key)
  {
    if entries != [] && entries[0].key != e.key {
      UpdatedSeries(entries[1..], e, key);
      assert Updated(entries, e)[1..] == Updated(entries[1..], e);
    }
  }

  class Store {
    var version: nat
    var entries: seq<Entry>

    constructor (entries: seq<Entry>)
      ensures this.entries == entries && version == MANIFEST_VERSION
    {
      this.entries := entries;
      version := MANIFEST_VERSION;
    }

    /** Record a chunk anywhere in the series' history, or reject it and leave the series as it was. */
    method RecordRange(key: Key, file: File, range: Range, coverage: Coverage) returns (ok: bool)
      requires Aligned(Series(entries, key))
      modifies this`entries
      ensures ok <==> Accepts(old(Series(entries, key)), range)
      ensures ok ==> entries == Updated(old(entries), Inserted(old(Series(entries, key)), Chunk(file, range, coverage)))
      ensures !ok ==> entries == old(entries)
    {
      if range.hi < range.lo {
        return false;
      }
      var idx := Find(entries, key);
      var e := Series(entries, key);
      if idx == |entries| {
        entries := entries + [e];
      }
      for i := 0 to |e.ranges|
        invariant forall j :: 0 <= j < i ==> !Overlap(range, e.ranges[j])
        invariant entries == if idx == |old(entries)| then old(entries) + [e] else old(entries)
      {
        if Overlap(range, e.ranges[i]) {
          return false;
        }
      }
      var at := InsertionPoint(e.ranges, range.lo);
      var grown := Entry(key, InsertAt(e.files, at, file), InsertAt(e.ranges, at, range), InsertAt(e.coverage, at, coverage),
                         Max(e.lastClose, range.hi));
      entries := entries[idx := grown];
      return true;
    }

    /** Every series is aligned, ordered and free of interior overlaps. */
    method Validate() returns (ok: bool)
      ensures ok <==> forall e :: e in entries ==> Valid(e)
    {
      for i := 0 to |entries|
        invariant forall j :: 0 <= j < i ==> Valid(entries[j])
      {
        var e := entries[i];
        assert e in entries;
        if |e.coverage| != |e.ranges| || |e.files| != |e.ranges| {
          return false;
        }
        var k := 1;
        while k < |e.ranges|
          invariant forall j :: 0 < j < k && j < |e.ranges| ==> e.ranges[j].lo >= e.ranges[j - 1].hi
        {
          if e.ranges[k].lo < e.ranges[k - 1].hi {
            return false;
          }
          k := k + 1;
        }
      }
      return true;
    }
  }
}
