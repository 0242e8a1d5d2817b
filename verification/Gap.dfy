/**
 * Which sub-ranges of a requested window the cache is missing. A stamp is missing exactly when it
 * is at least one bar away from every cached range that meets the window, unless the whole window
 * lies between two ranges less than a bar apart. Everything else the planner promises follows.
 */
module Gap {
  import opened Prelude
  import opened Sorting

  /** An inclusive range of close stamps. */
  datatype Range = Range(lo: int, hi: int) {
    predicate Has(x: int) {
      lo <= x <= hi
    }

    predicate Meets(r: Range) {
      lo <= r.hi && r.lo <= hi
    }

    /** Less than one bar away. */
    predicate Near(x: int, bar: int) {
      lo - bar < x < hi + bar
    }
  }

  predicate Before(r: Range, s: Range) {
    r.lo < s.lo || (r.lo == s.lo && r.hi < s.hi)
  }

  // ---------------------------------------------------------------- the algorithm on values

  function WellOrdered(cached: seq<Range>): seq<Range> {
    if cached == [] then []
    else
      var last := cached[|cached| - 1];
      WellOrdered(cached[..|cached| - 1]) + (if last.hi >= last.lo then [last] else [])
  }

  /** Append a range, joining it to the last one when they are at most one bar apart. */
  function Joined(merged: seq<Range>, r: Range, bar: int): seq<Range> {
    if merged != [] && r.lo <= merged[|merged| - 1].hi + bar then
      var last := merged[|merged| - 1];
      merged[..|merged| - 1] + [Range(last.lo, Max(last.hi, r.hi))]
    else
      merged + [r]
  }

  function Coalesced(ranges: seq<Range>, bar: int): seq<Range> {
    if ranges == [] then [] else Joined(Coalesced(ranges[..|ranges| - 1], bar), ranges[|ranges| - 1], bar)
  }

  /** The walk over the merged coverage: holes found, next uncovered stamp, and whether it is over. */
  datatype Walk = Walk(gaps: seq<Range>, cursor: int, over: bool)

  function Passed(w: Walk, c: Range, window: Range, bar: int): Walk {
    if w.over || c.hi < w.cursor then
      w
    else if c.lo > window.hi then
      w.(over := true)
    else
      var hole := Range(w.cursor, Min(c.lo - bar, window.hi));
      var gaps := if c.lo > w.cursor && hole.hi >= hole.lo then w.gaps + [hole] else w.gaps;
      var cursor := Max(w.cursor, c.hi + bar);
      Walk(gaps, cursor, cursor > window.hi)
  }

  function PassedAll(merged: seq<Range>, window: Range, bar: int): Walk {
    if merged == [] then Walk([], window.lo, false)
    else Passed(PassedAll(merged[..|merged| - 1], window, bar), merged[|merged| - 1], window, bar)
  }

  function Tail(w: Walk, window: Range): seq<Range> {
    if w.cursor <= window.hi then w.gaps + [Range(w.cursor, window.hi)] else w.gaps
  }

  function SortedRanges(cached: seq<Range>): seq<Range> {
    StableSort(WellOrdered(cached), Before)
  }

  /** The holes to fetch; a bar width below one counts as one. */
  function Planned(cached: seq<Range>, window: Range, width: int): seq<Range> {
    if window.hi < window.lo then
      []
    else
      var bar := Max(width, 1);
      Tail(PassedAll(Coalesced(SortedRanges(cached), bar), window, bar), window)
  }

  // ---------------------------------------------------------------- the algorithm in place

  /** Join contiguous ranges in one vector, growing its last element in place. */
  method Coalesce(ranges: seq<Range>, bar: int) returns (merged: seq<Range>)
    ensures merged == Coalesced(ranges, bar)
  {
    merged := [];
    for i := 0 to |ranges|
      invariant merged == Coalesced(ranges[..i], bar)
    {
      PrefixStep(ranges, i);
      var r := ranges[i];
      if merged != [] && r.lo <= merged[|merged| - 1].hi + bar {
        var last := merged[|merged| - 1];
        merged := merged[..|merged| - 1] + [Range(last.lo, Max(last.hi, r.hi))];
      } else {
        merged := merged + [r];
      }
    }
    assert ranges[..|ranges|] == ranges;
  }

  /** Filter, sort, coalesce, then walk the window with a cursor, emitting the holes. */
  method MissingGaps(cached: seq<Range>, window: Range, width: int) returns (gaps: seq<Range>)
    ensures gaps == Planned(cached, window, width)
  {
    hide SortedRanges, Coalesced;
    gaps := [];
    if window.hi < window.lo {
      return;
    }
    var bar := Max(width, 1);
    var merged := Coalesce(SortedRanges(cached), bar);
    var cursor := window.lo;
    ghost var over := false;
    ghost var seen := 0;
    for i := 0 to |merged|
      invariant !over && seen == i && PassedAll(merged[..seen], window, bar) == Walk(gaps, cursor, over)
    {
      PrefixStep(merged, i);
      seen := i + 1;
      var c := merged[i];
      if c.hi < cursor {
        continue;
      }
      if c.lo > window.hi {
        over := true;
        break;
      }
      if c.lo > cursor {
        var holeHi := Min(c.lo - bar, window.hi);
        if holeHi >= cursor {
          gaps := gaps + [Range(cursor, holeHi)];
        }
      }
      cursor := Max(cursor, c.hi + bar);
      if cursor > window.hi {
        over := true;
        break;
      }
    }
    WalkStaysOver(merged, window, bar, seen);
    hide PassedAll;
    if cursor <= window.hi {
      gaps := gaps + [Range(cursor, window.hi)];
    }
  }

  lemma {:induction false} WalkStaysOver(merged: seq<Range>, window: Range, bar: int, i: nat)
    requires i <= |merged|
    requires i == |merged| || PassedAll(merged[..i], window, bar).over
    ensures PassedAll(merged, window, bar) == PassedAll(merged[..i], window, bar)
    decreases |merged| - i
  {
    if i == |merged| {
      assert merged[..i] == merged;
    } else {
      PrefixStep(merged, i);
      WalkStaysOver(merged, window, bar, i + 1);
    }
  }

  // ---------------------------------------------------------------- what coalescing keeps

  ghost predicate AllWellOrdered(s: seq<Range>) {
    forall r :: r in s ==> r.lo <= r.hi
  }

  ghost predicate LoSorted(s: seq<Range>) {
    forall i, j :: 0 <= i < j < |s| ==> s[i].lo <= s[j].lo
  }

  /** Strictly more than one bar between neighbours. */
  ghost predicate Separated(m: seq<Range>, bar: int) {
    forall i, j :: 0 <= i < j < |m| ==> m[i].hi + bar < m[j].lo
  }

  ghost predicate Contained(r: Range, m: seq<Range>) {
    exists q :: q in m && q.lo <= r.lo && r.hi <= q.hi
  }

  ghost predicate StartsIn(q: Range, s: seq<Range>) {
    exists r :: r in s && r.lo == q.lo
  }

  ghost predicate EndsIn(q: Range, s: seq<Range>) {
    exists r :: r in s && r.hi == q.hi
  }

  ghost predicate Merges(s: seq<Range>, m: seq<Range>, bar: int) {
    && AllWellOrdered(m) && Separated(m, bar)
    && (forall r :: r in s ==> Contained(r, m))
    && (forall q :: q in m ==> StartsIn(q, s) && EndsIn(q, s))
  }

  lemma LastStartsEarlier(s: seq<Range>, m: seq<Range>, r: Range)
    requires LoSorted(s + [r]) && m != [] && StartsIn(m[|m| - 1], s)
    ensures m[|m| - 1].lo <= r.lo
  {
    var first :| first in s && first.lo == m[|m| - 1].lo;
    var i :| 0 <= i < |s| && s[i] == first;
    assert (s + [r])[i] == first && (s + [r])[|s|] == r;
  }

  /** Every range of m lies within one of n. */
  ghost predicate Widens(m: seq<Range>, n: seq<Range>) {
    forall q :: q in m ==> Contained(q, n)
  }

  lemma ContainedWidens(r: Range, m: seq<Range>, n: seq<Range>)
    requires Contained(r, m) && Widens(m, n)
    ensures Contained(r, n)
  {
    var q :| q in m && q.lo <= r.lo && r.hi <= q.hi;
    assert Contained(q, n);
  }

  lemma EndsStay(q: Range, s: seq<Range>, r: Range)
    ensures StartsIn(q, s) ==> StartsIn(q, s + [r])
    ensures EndsIn(q, s) ==> EndsIn(q, s + [r])
    ensures q.lo == r.lo ==> StartsIn(q, s + [r])
    ensures q.hi == r.hi ==> EndsIn(q, s + [r])
  {
    var t := s + [r];
    assert t[|s|] == r && r in t;
    assert forall x :: x in s ==> x in t;
  }

  lemma JoinedElements(m: seq<Range>, r: Range, bar: int)
    requires m != [] && r.lo <= m[|m| - 1].hi + bar
    ensures var last := m[|m| - 1];
            var joined := Range(last.lo, Max(last.hi, r.hi));
            && joined in Joined(m, r, bar)
            && (forall q :: q in Joined(m, r, bar) ==> q == joined || q in m)
            && (forall q :: q in m ==> q == last || q in Joined(m, r, bar))
  {
    var init, last := m[..|m| - 1], m[|m| - 1];
    assert m == init + [last];
    var n := Joined(m, r, bar);
    assert n[|init|] in n;
  }

  lemma JoinWidens(m: seq<Range>, r: Range, bar: int)
    requires r.lo <= r.hi && (m != [] ==> m[|m| - 1].lo <= r.lo && m[|m| - 1].lo <= m[|m| - 1].hi)
    ensures Widens(m, Joined(m, r, bar)) && Contained(r, Joined(m, r, bar))
  {
    var n := Joined(m, r, bar);
    if m != [] && r.lo <= m[|m| - 1].hi + bar {
      JoinedElements(m, r, bar);
    } else {
      assert n == m + [r] && n[|m|] == r;
    }
  }

  lemma JoinSeparates(m: seq<Range>, r: Range, bar: int)
    requires bar >= 1 && r.lo <= r.hi && AllWellOrdered(m) && Separated(m, bar)
    ensures AllWellOrdered(Joined(m, r, bar)) && Separated(Joined(m, r, bar), bar)
  {
    var n := Joined(m, r, bar);
    if m != [] {
      var last := m[|m| - 1];
      assert last in m;
      forall i, j | 0 <= i < j < |n| ensures n[i].hi + bar < n[j].lo {
        if i < |m| - 1 {
          assert m[i].hi + bar < last.lo;
        }
      }
      if r.lo <= last.hi + bar { JoinedElements(m, r, bar); }
    }
  }

  lemma JoinMerges(s: seq<Range>, m: seq<Range>, r: Range, bar: int)
    requires bar >= 1 && AllWellOrdered(s + [r]) && LoSorted(s + [r]) && Merges(s, m, bar)
    ensures Merges(s + [r], Joined(m, r, bar), bar)
  {
    hide Contained, StartsIn, EndsIn, Separated, Widens, Joined;
    var t, n := s + [r], Joined(m, r, bar);
    assert t[|s|] == r && r in t;
    if m != [] {
      assert m[|m| - 1] in m;
      LastStartsEarlier(s, m, r);
    }
    JoinSeparates(m, r, bar);
    JoinWidens(m, r, bar);
    forall q | q in t ensures Contained(q, n) {
      if q in s { ContainedWidens(q, m, n); }
    }
    forall q | q in n ensures StartsIn(q, t) && EndsIn(q, t) {
      JoinedEnds(s, m, r, bar, q);
    }
  }

  lemma JoinedEnds(s: seq<Range>, m: seq<Range>, r: Range, bar: int, q: Range)
    requires (forall c :: c in m ==> StartsIn(c, s) && EndsIn(c, s)) && q in Joined(m, r, bar)
    ensures StartsIn(q, s + [r]) && EndsIn(q, s + [r])
  {
    hide StartsIn, EndsIn;
    EndsStay(q, s, r);
    if m != [] && r.lo <= m[|m| - 1].hi + bar {
      JoinedElements(m, r, bar);
      var last := m[|m| - 1];
      assert last in m;
      if q !in m {
        StartsAlike(q, last, s, r);
        if last.hi >= r.hi { EndsAlike(q, last, s, r); }
      }
    } else {
      assert Joined(m, r, bar) == m + [r];
    }
  }

  lemma StartsAlike(q: Range, last: Range, s: seq<Range>, r: Range)
    requires StartsIn(last, s) && q.lo == last.lo
    ensures StartsIn(q, s + [r])
  {
    var first :| first in s && first.lo == last.lo;
    assert first in s + [r];
  }

  lemma EndsAlike(q: Range, last: Range, s: seq<Range>, r: Range)
    requires EndsIn(last, s) && q.hi == last.hi
    ensures EndsIn(q, s + [r])
  {
    var first :| first in s && first.hi == last.hi;
    assert first in s + [r];
  }

  lemma {:induction false} CoalescedMerges(s: seq<Range>, bar: int)
    requires bar >= 1 && AllWellOrdered(s) && LoSorted(s)
    ensures Merges(s, Coalesced(s, bar), bar)
  {
    if s != [] {
      var init, r := s[..|s| - 1], s[|s| - 1];
      assert s == init + [r];
      CoalescedMerges(init, bar);
      hide Merges;
      JoinMerges(init, Coalesced(init, bar), r, bar);
    }
  }

  // ---------------------------------------------------------------- coverage, raw and merged

  ghost predicate NearOne(s: seq<Range>, window: Range, x: int, bar: int) {
    exists r :: r in s && r.lo <= r.hi && r.Meets(window) && r.Near(x, bar)
  }

  /** The whole window lies in the sliver, less than a bar wide, between two cached ranges. */
  ghost predicate Straddled(s: seq<Range>, window: Range, bar: int) {
    exists r, q :: r in s && q in s && r.lo <= r.hi && q.lo <= q.hi && r.hi < window.lo && window.hi < q.lo <= r.hi + bar
  }

  /** The planner considers the stamp x of the window cached. */
  ghost predicate Covered(s: seq<Range>, window: Range, x: int, bar: int) {
    NearOne(s, window, x, bar) || Straddled(s, window, bar)
  }

  lemma CoverageGrows(s: seq<Range>, t: seq<Range>, window: Range, x: int, bar: int)
    requires (forall r :: r in s ==> r in t) && Covered(s, window, x, bar)
    ensures Covered(t, window, x, bar)
  {
  }

  /** Joining a range to the last one covers no stamp that neither of them, nor a straddle, covers. */
  lemma JoinIsCovered(s: seq<Range>, last: Range, r: Range, bar: int, window: Range, x: int)
    requires bar >= 1 && AllWellOrdered(s) && r in s && EndsIn(last, s) && window.Has(x)
    requires last.lo <= r.lo <= last.hi + bar && last.lo <= last.hi
    requires Range(last.lo, Max(last.hi, r.hi)).Meets(window) && Range(last.lo, Max(last.hi, r.hi)).Near(x, bar)
    requires !(last.Meets(window) && last.Near(x, bar))
    ensures Covered(s, window, x, bar)
  {
    if r.Meets(window) {
      assert r.Near(x, bar);
      assert NearOne(s, window, x, bar);
    } else {
      var first :| first in s && first.hi == last.hi;
      assert first.hi < window.lo && window.hi < r.lo <= first.hi + bar;
      assert Straddled(s, window, bar);
    }
  }

  lemma {:induction false} MergedIsCovered(s: seq<Range>, bar: int, window: Range, x: int, q: Range)
    requires bar >= 1 && AllWellOrdered(s) && LoSorted(s) && window.Has(x)
    requires q in Coalesced(s, bar) && q.Meets(window) && q.Near(x, bar)
    ensures Covered(s, window, x, bar)
  {
    hide Covered, Joined, StartsIn, EndsIn, Contained;
    if s != [] {
      var init, r := s[..|s| - 1], s[|s| - 1];
      assert s == init + [r];
      var m := Coalesced(init, bar);
      CoalescedMerges(init, bar);
      var earlier := if q in m then q else if m != [] then m[|m| - 1] else r;
      if earlier in m && earlier.Meets(window) && earlier.Near(x, bar) {
        MergedIsCovered(init, bar, window, x, earlier);
        CoverageGrows(init, s, window, x, bar);
      } else if m != [] && r.lo <= m[|m| - 1].hi + bar {
        JoinedElements(m, r, bar);
        LastStartsEarlier(init, m, r);
        EndsAlike(earlier, earlier, init, r);
        JoinIsCovered(s, earlier, r, bar, window, x);
      } else {
        AppendedIsCovered(s, m, r, bar, window, x, q);
      }
    }
  }

  lemma AppendedIsCovered(s: seq<Range>, m: seq<Range>, r: Range, bar: int, window: Range, x: int, q: Range)
    requires r in s && r.lo <= r.hi && q in Joined(m, r, bar) && q !in m && !(m != [] && r.lo <= m[|m| - 1].hi + bar)
    requires q.Meets(window) && q.Near(x, bar)
    ensures Covered(s, window, x, bar)
  {
    assert NearOne(s, window, x, bar);
  }

  lemma ContainedCovers(r: Range, m: seq<Range>, window: Range, x: int, bar: int)
    requires r.lo <= r.hi && Contained(r, m) && r.Meets(window) && r.Near(x, bar)
    ensures NearOne(m, window, x, bar)
  {
    var q :| q in m && q.lo <= r.lo && r.hi <= q.hi;
    assert q.lo <= q.hi && q.Meets(window) && q.Near(x, bar);
  }

  lemma Apart(m: seq<Range>, bar: int, i: nat, j: nat)
    requires Separated(m, bar) && i < |m| && j < |m|
    ensures i == j || m[i].hi + bar < m[j].lo || m[j].hi + bar < m[i].lo
  {
  }

  lemma StraddleCovers(r: Range, q: Range, m: seq<Range>, bar: int, window: Range, x: int)
    requires bar >= 1 && Contained(r, m) && Contained(q, m) && Separated(m, bar) && window.Has(x)
    requires r.lo <= r.hi < window.lo && window.hi < q.lo <= r.hi + bar && q.lo <= q.hi
    ensures NearOne(m, window, x, bar)
  {
    var a :| a in m && a.lo <= r.lo && r.hi <= a.hi;
    var b :| b in m && b.lo <= q.lo && q.hi <= b.hi;
    var i :| 0 <= i < |m| && m[i] == a;
    var j :| 0 <= j < |m| && m[j] == b;
    Apart(m, bar, i, j);
    assert a.Meets(window) && a.Near(x, bar);
  }

  lemma CoveredIsMerged(s: seq<Range>, m: seq<Range>, bar: int, window: Range, x: int)
    requires bar >= 1 && Merges(s, m, bar) && window.Has(x) && Covered(s, window, x, bar)
    ensures NearOne(m, window, x, bar)
  {
    hide Contained, StartsIn, EndsIn, Separated;
    if NearOne(s, window, x, bar) {
      var r :| r in s && r.lo <= r.hi && r.Meets(window) && r.Near(x, bar);
      hide NearOne;
      ContainedCovers(r, m, window, x, bar);
    } else {
      var r, q :| r in s && q in s && r.lo <= r.hi && q.lo <= q.hi && r.hi < window.lo && window.hi < q.lo <= r.hi + bar;
      hide NearOne;
      StraddleCovers(r, q, m, bar, window, x);
    }
  }

  // ---------------------------------------------------------------- the walk is exact

  predicate InGaps(gaps: seq<Range>, x: int) {
    exists g :: g in gaps && g.Has(x)
  }

  /** Holes ascend, do not touch and stay inside the window, below a bound. */
  ghost predicate Ascending(gaps: seq<Range>, window: Range, bound: int) {
    && (forall g :: g in gaps ==> window.lo <= g.lo <= g.hi <= window.hi && g.hi < bound)
    && (forall i, j :: 0 <= i < j < |gaps| ==> gaps[i].hi < gaps[j].lo)
  }

  ghost predicate BehindCursor(r: Range, window: Range, cursor: int, bar: int) {
    r.Meets(window) ==> r.hi + bar <= cursor
  }

  ghost predicate Exact(gaps: seq<Range>, m: seq<Range>, window: Range, x: int, bar: int) {
    InGaps(gaps, x) <==> !NearOne(m, window, x, bar)
  }

  ghost predicate WalkLaw(m: seq<Range>, i: nat, w: Walk, window: Range, bar: int) {
    && i <= |m| && window.lo <= w.cursor
    && Ascending(w.gaps, window, w.cursor)
    && (forall x :: window.Has(x) && x < w.cursor ==> Exact(w.gaps, m, window, x, bar))
    && (forall j :: 0 <= j < (if w.over then |m| else i) ==> BehindCursor(m[j], window, w.cursor, bar) || w.cursor > window.hi)
    && (!w.over ==> w.cursor == window.lo || forall k :: i <= k < |m| ==> w.cursor < m[k].lo)
  }

  lemma PushGap(gaps: seq<Range>, hole: Range, window: Range, bound: int)
    requires Ascending(gaps, window, hole.lo) && window.lo <= hole.lo <= hole.hi <= window.hi && hole.hi < bound
    ensures Ascending(gaps + [hole], window, bound)
    ensures forall x :: InGaps(gaps + [hole], x) <==> InGaps(gaps, x) || hole.Has(x)
  {
    var more := gaps + [hole];
    assert more[|gaps|] == hole;
    forall i, j | 0 <= i < j < |more| ensures more[i].hi < more[j].lo {
      assert more[i] == gaps[i] && gaps[i] in gaps;
    }
    forall x ensures InGaps(more, x) <==> InGaps(gaps, x) || hole.Has(x) {
      if InGaps(gaps, x) {
        var g :| g in gaps && g.Has(x);
        assert g in more;
      }
    }
  }

  /** Stamps from the cursor up to one bar before the next coverage are near nothing. */
  lemma HoleIsFar(m: seq<Range>, i: nat, window: Range, cursor: int, bar: int, x: int)
    requires bar >= 1 && i < |m| && AllWellOrdered(m) && Separated(m, bar)
    requires forall j :: 0 <= j < i ==> BehindCursor(m[j], window, cursor, bar)
    requires cursor <= x <= m[i].lo - bar
    ensures !NearOne(m, window, x, bar)
  {
    forall r | r in m && r.Meets(window) ensures !r.Near(x, bar) {
      var j :| 0 <= j < |m| && m[j] == r;
      if j < i {
        assert BehindCursor(m[j], window, cursor, bar);
      } else if j > i {
        Apart(m, bar, i, j);
        assert m[i] in m && m[j] in m && m[i].hi + bar < m[j].lo;
      }
    }
  }

  /** Past the cursor, with everything met behind it, stamps are near nothing. */
  lemma RestIsFar(m: seq<Range>, window: Range, cursor: int, bar: int, x: int)
    requires forall j :: 0 <= j < |m| ==> BehindCursor(m[j], window, cursor, bar)
    requires cursor <= x
    ensures !NearOne(m, window, x, bar)
  {
    forall r | r in m && r.Meets(window) ensures !r.Near(x, bar) {
      var j :| 0 <= j < |m| && m[j] == r;
      assert BehindCursor(m[j], window, cursor, bar);
    }
  }

  lemma SkipStep(m: seq<Range>, i: nat, w: Walk, window: Range, bar: int)
    requires bar >= 1 && AllWellOrdered(m) && Separated(m, bar) && i < |m|
    requires WalkLaw(m, i, w, window, bar) && !w.over && w.cursor <= window.hi && m[i].hi < w.cursor
    ensures WalkLaw(m, i + 1, w, window, bar)
  {
    hide Ascending, Exact;
    assert m[i] in m;
    assert !m[i].Meets(window);
  }

  lemma StopStep(m: seq<Range>, i: nat, w: Walk, window: Range, bar: int)
    requires bar >= 1 && AllWellOrdered(m) && Separated(m, bar) && i < |m|
    requires WalkLaw(m, i, w, window, bar) && !w.over && m[i].lo > window.hi
    ensures WalkLaw(m, i + 1, w.(over := true), window, bar)
  {
    hide Ascending, Exact;
    forall j | i <= j < |m| ensures !m[j].Meets(window) {
      assert m[i] in m && m[j] in m;
      Apart(m, bar, i, j);
    }
  }

  lemma MeetStep(m: seq<Range>, i: nat, w: Walk, window: Range, bar: int)
    requires bar >= 1 && AllWellOrdered(m) && Separated(m, bar) && i < |m|
    requires WalkLaw(m, i, w, window, bar) && !w.over && w.cursor <= window.hi
    requires m[i].hi >= w.cursor && m[i].lo <= window.hi
    ensures WalkLaw(m, i + 1, Passed(w, m[i], window, bar), window, bar)
  {
    hide Exact;
    var c, next := m[i], Passed(w, m[i], window, bar);
    assert c in m;
    assert c.Meets(window) && next.cursor == c.hi + bar;
    var hole := Range(w.cursor, Min(c.lo - bar, window.hi));
    if c.lo > w.cursor && hole.hi >= hole.lo {
      PushGap(w.gaps, hole, window, next.cursor);
    }
    forall x | window.Has(x) && x < next.cursor ensures Exact(next.gaps, m, window, x, bar) {
      MeetIsExact(m, i, w, window, bar, x);
    }
    forall k | i + 1 <= k < |m| ensures next.cursor < m[k].lo { Apart(m, bar, i, k); assert m[k] in m; }
  }

  lemma MeetIsExact(m: seq<Range>, i: nat, w: Walk, window: Range, bar: int, x: int)
    requires bar >= 1 && AllWellOrdered(m) && Separated(m, bar) && i < |m|
    requires WalkLaw(m, i, w, window, bar) && !w.over && w.cursor <= window.hi
    requires m[i].hi >= w.cursor && m[i].lo <= window.hi && window.Has(x) && x < m[i].hi + bar
    ensures Exact(Passed(w, m[i], window, bar).gaps, m, window, x, bar)
  {
    var c, next := m[i], Passed(w, m[i], window, bar);
    assert c in m;
    var hole := Range(w.cursor, Min(c.lo - bar, window.hi));
    if c.lo > w.cursor && hole.hi >= hole.lo {
      PushGap(w.gaps, hole, window, hole.hi + 1);
    }
    if x < w.cursor {
      assert Exact(w.gaps, m, window, x, bar);
    } else if x <= c.lo - bar {
      HoleIsFar(m, i, window, w.cursor, bar, x);
    } else {
      assert c.Near(x, bar) && NearOne(m, window, x, bar);
      assert !InGaps(w.gaps, x);
    }
  }

  lemma {:induction false} WalkIsLawful(m: seq<Range>, i: nat, window: Range, bar: int)
    requires bar >= 1 && AllWellOrdered(m) && Separated(m, bar) && i <= |m| && window.lo <= window.hi
    ensures var w := PassedAll(m[..i], window, bar);
            WalkLaw(m, i, w, window, bar) && (w.cursor > window.hi ==> w.over)
  {
    hide WalkLaw, Passed;
    if i == 0 {
      WalkStarts(m, window, bar);
    } else {
      PrefixStep(m, i - 1);
      WalkIsLawful(m, i - 1, window, bar);
      PassedStep(m, i - 1, PassedAll(m[..i - 1], window, bar), window, bar);
    }
  }

  lemma WalkStarts(m: seq<Range>, window: Range, bar: int)
    ensures WalkLaw(m, 0, Walk([], window.lo, false), window, bar)
  {
  }

  lemma PassedStep(m: seq<Range>, i: nat, w: Walk, window: Range, bar: int)
    requires bar >= 1 && AllWellOrdered(m) && Separated(m, bar) && i < |m|
    requires WalkLaw(m, i, w, window, bar) && (w.cursor > window.hi ==> w.over)
    ensures var next := Passed(w, m[i], window, bar);
            WalkLaw(m, i + 1, next, window, bar) && (next.cursor > window.hi ==> next.over)
  {
    if !w.over {
      if m[i].hi < w.cursor {
        SkipStep(m, i, w, window, bar);
      } else if m[i].lo > window.hi {
        StopStep(m, i, w, window, bar);
      } else {
        MeetStep(m, i, w, window, bar);
      }
    }
  }

  lemma TailIsExact(m: seq<Range>, window: Range, bar: int, x: int)
    requires bar >= 1 && AllWellOrdered(m) && Separated(m, bar) && window.lo <= window.hi && window.Has(x)
    ensures Exact(Tail(PassedAll(m, window, bar), window), m, window, x, bar)
  {
    hide PassedAll;
    var w := PassedAll(m, window, bar);
    WalkIsLawful(m, |m|, window, bar);
    assert m[..|m|] == m;
    if w.cursor <= window.hi {
      PushGap(w.gaps, Range(w.cursor, window.hi), window, window.hi + 1);
    }
    if x < w.cursor {
      assert Exact(w.gaps, m, window, x, bar);
    } else {
      RestIsFar(m, window, w.cursor, bar, x);
      assert !InGaps(w.gaps, x);
    }
  }

  lemma TailAscends(m: seq<Range>, window: Range, bar: int)
    requires bar >= 1 && AllWellOrdered(m) && Separated(m, bar) && window.lo <= window.hi
    ensures Ascending(Tail(PassedAll(m, window, bar), window), window, window.hi + 1)
  {
    hide PassedAll;
    var w := PassedAll(m, window, bar);
    WalkIsLawful(m, |m|, window, bar);
    assert m[..|m|] == m;
    if w.cursor <= window.hi {
      PushGap(w.gaps, Range(w.cursor, window.hi), window, window.hi + 1);
    }
  }

  // ---------------------------------------------------------------- what the planner promises

  lemma {:induction false} WellOrderedElements(s: seq<Range>)
    ensures forall r :: r in WellOrdered(s) <==> r in s && r.lo <= r.hi
  {
    if s != [] {
      assert s == s[..|s| - 1] + [s[|s| - 1]];
      WellOrderedElements(s[..|s| - 1]);
    }
  }

  lemma BeforeIsKeyOrder()
    ensures KeyOrder(Before)
  {
  }

  lemma SortedRangesFacts(cached: seq<Range>)
    ensures AllWellOrdered(SortedRanges(cached)) && LoSorted(SortedRanges(cached))
    ensures forall r :: r in SortedRanges(cached) <==> r in cached && r.lo <= r.hi
  {
    var kept, s := WellOrdered(cached), SortedRanges(cached);
    WellOrderedElements(cached);
    SortIsPermutation(kept, Before);
    BeforeIsKeyOrder();
    SortSorts(kept, Before);
    forall r ensures r in s <==> r in kept {
      assert r in s <==> r in multiset(s);
      assert r in kept <==> r in multiset(kept);
    }
  }

  lemma SameCoverage(s: seq<Range>, t: seq<Range>, window: Range, x: int, bar: int)
    requires forall r :: r in s <==> r in t && r.lo <= r.hi
    ensures Covered(s, window, x, bar) <==> Covered(t, window, x, bar)
  {
    if Covered(t, window, x, bar) {
      if NearOne(t, window, x, bar) {
        var r :| r in t && r.lo <= r.hi && r.Meets(window) && r.Near(x, bar);
        assert r in s;
      } else {
        var r, q :| r in t && q in t && r.lo <= r.hi && q.lo <= q.hi && r.hi < window.lo && window.hi < q.lo <= r.hi + bar;
        assert r in s && q in s;
        assert Straddled(s, window, bar);
      }
    }
    if Covered(s, window, x, bar) {
      CoverageGrows(s, t, window, x, bar);
    }
  }

  /**
   * The plan is exact: the holes ascend, do not touch, lie inside the window, and hold precisely
   * the stamps of the window that are not covered.
   */
  lemma HolesAreExact(cached: seq<Range>, window: Range, width: int)
    ensures Ascending(Planned(cached, window, width), window, window.hi + 1)
    ensures forall x :: InGaps(Planned(cached, window, width), x) <==> window.Has(x) && !Covered(cached, window, x, Max(width, 1))
  {
    if window.lo <= window.hi {
      var bar, ranges := Max(width, 1), SortedRanges(cached);
      var merged := Coalesced(ranges, bar);
      SortedRangesFacts(cached);
      CoalescedMerges(ranges, bar);
      hide SortedRanges, Coalesced;
      TailAscends(merged, window, bar);
      forall x ensures InGaps(Planned(cached, window, width), x) <==> window.Has(x) && !Covered(cached, window, x, bar) {
        if window.Has(x) {
          SameCoverage(ranges, cached, window, x, bar);
          HoleMembership(ranges, window, x, bar);
        }
      }
    }
  }

  lemma HoleMembership(ranges: seq<Range>, window: Range, x: int, bar: int)
    requires bar >= 1 && AllWellOrdered(ranges) && LoSorted(ranges) && window.Has(x)
    ensures InGaps(Tail(PassedAll(Coalesced(ranges, bar), window, bar), window), x) <==> !Covered(ranges, window, x, bar)
  {
    hide PassedAll, Covered, Coalesced, Tail;
    var merged := Coalesced(ranges, bar);
    CoalescedMerges(ranges, bar);
    TailIsExact(merged, window, bar, x);
    if NearOne(merged, window, x, bar) {
      var q :| q in merged && q.lo <= q.hi && q.Meets(window) && q.Near(x, bar);
      MergedIsCovered(ranges, bar, window, x, q);
    } else if Covered(ranges, window, x, bar) {
      CoveredIsMerged(ranges, merged, bar, window, x);
    }
  }

  /** No stamp of a cached range is ever planned again. */
  lemma CachedIsNotPlanned(cached: seq<Range>, window: Range, width: int, r: Range, x: int)
    requires r in cached && r.Has(x)
    ensures !InGaps(Planned(cached, window, width), x)
  {
    HolesAreExact(cached, window, width);
    hide Planned;
    if window.Has(x) {
      assert r.Near(x, Max(width, 1)) && NearOne(cached, window, x, Max(width, 1));
    }
  }

  lemma HolesAvoidTheCache(cached: seq<Range>, window: Range, width: int, hole: Range, r: Range)
    requires hole in Planned(cached, window, width) && r in cached && r.lo <= r.hi
    ensures hole.hi < r.lo || r.hi < hole.lo
  {
    HolesAreExact(cached, window, width);
    hide Planned;
    var x := Max(hole.lo, r.lo);
    if r.Has(x) {
      CachedIsNotPlanned(cached, window, width, r, x);
    }
    assert hole.Has(x) ==> InGaps(Planned(cached, window, width), x);
  }

  /** Every stamp of the window is planned or less than a bar from a cached range. */
  lemma EveryStampIsPlannedOrNear(cached: seq<Range>, window: Range, width: int, x: int)
    requires window.Has(x)
    ensures InGaps(Planned(cached, window, width), x) || exists r :: r in cached && r.lo <= r.hi && r.Near(x, Max(width, 1))
  {
    HolesAreExact(cached, window, width);
    hide Planned;
    var bar := Max(width, 1);
    if Straddled(cached, window, bar) {
      var r, q :| r in cached && q in cached && r.lo <= r.hi && q.lo <= q.hi && r.hi < window.lo && window.hi < q.lo <= r.hi + bar;
      assert r.Near(x, bar);
    }
  }

  lemma FirstGapStarts(gaps: seq<Range>, window: Range)
    requires Ascending(gaps, window, window.hi + 1)
    ensures gaps != [] ==> window.Has(gaps[0].lo) && InGaps(gaps, gaps[0].lo)
  {
    if gaps != [] { assert gaps[0] in gaps && gaps[0].Has(gaps[0].lo); }
  }

  /** With nothing uncovered there is nothing to plan. */
  lemma CoveredPlansNothing(cached: seq<Range>, window: Range, width: int)
    requires forall x :: window.Has(x) ==> Covered(cached, window, x, Max(width, 1))
    ensures Planned(cached, window, width) == []
  {
    HolesAreExact(cached, window, width);
    hide Planned;
    FirstGapStarts(Planned(cached, window, width), window);
  }

  /** Caching the planned holes leaves nothing to plan. */
  lemma PlanningAgainFindsNothing(cached: seq<Range>, window: Range, width: int)
    ensures Planned(cached + Planned(cached, window, width), window, width) == []
  {
    HolesAreExact(cached, window, width);
    var bar, gaps := Max(width, 1), Planned(cached, window, width);
    hide Planned;
    var more := cached + gaps;
    assert (forall r :: r in cached ==> r in more) && (forall r :: r in gaps ==> r in more);
    forall x | window.Has(x) ensures Covered(more, window, x, bar) {
      if Covered(cached, window, x, bar) {
        CoverageGrows(cached, more, window, x, bar);
      } else {
        var g :| g in gaps && g.Has(x);
        assert g in more && g.Meets(window) && g.Near(x, bar);
        assert NearOne(more, window, x, bar);
      }
    }
    CoveredPlansNothing(more, window, width);
  }

  lemma {:induction false} WellOrderedMultiset(s: seq<Range>)
    ensures forall r :: multiset(WellOrdered(s))[r] == if r.lo <= r.hi then multiset(s)[r] else 0
  {
    if s != [] {
      assert s == s[..|s| - 1] + [s[|s| - 1]];
      WellOrderedMultiset(s[..|s| - 1]);
    }
  }

  lemma SortIsUnique(s: seq<Range>, t: seq<Range>)
    requires multiset(s) == multiset(t)
    ensures StableSort(s, Before) == StableSort(t, Before)
  {
    SortIsPermutation(s, Before);
    SortIsPermutation(t, Before);
    BeforeIsKeyOrder();
    SortSorts(s, Before);
    SortSorts(t, Before);
    SortedPermutationsTie(StableSort(s, Before), StableSort(t, Before), Before);
    hide StableSort;
  }

  /** The order in which the cached ranges are listed does not matter. */
  lemma OrderIsIrrelevant(cached: seq<Range>, shuffled: seq<Range>, window: Range, width: int)
    requires multiset(cached) == multiset(shuffled)
    ensures Planned(cached, window, width) == Planned(shuffled, window, width)
  {
    hide StableSort, WellOrdered, PassedAll, Coalesced;
    WellOrderedMultiset(cached);
    WellOrderedMultiset(shuffled);
    assert multiset(WellOrdered(cached)) == multiset(WellOrdered(shuffled));
    SortIsUnique(WellOrdered(cached), WellOrdered(shuffled));
  }
}
