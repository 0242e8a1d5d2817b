/**
 * Bars as the cache handles them: sorted by close stamp, one per stamp, clipped to a range. On
 * bars that all come from one venue this is the venue's own history, filtered.
 */
module BarSets {
  import opened Trading
  import opened Sorting
  import opened Gap

  predicate SoonerBar(a: Bar, b: Bar) {
    a.ts < b.ts
  }

  ghost predicate StrictlyAscending(s: seq<Bar>) {
    forall i, j :: 0 <= i < j < |s| ==> s[i].ts < s[j].ts
  }

  /** Drop every bar that repeats the stamp of the bar before it. */
  function Deduped(s: seq<Bar>): seq<Bar> {
    if s == [] then []
    else
      var kept := Deduped(s[..|s| - 1]);
      if kept != [] && kept[|kept| - 1].ts == s[|s| - 1].ts then kept else kept + [s[|s| - 1]]
  }

  function Filter(s: seq<Bar>, p: Bar -> bool): seq<Bar> {
    if s == [] then []
    else Filter(s[..|s| - 1], p) + (if p(s[|s| - 1]) then [s[|s| - 1]] else [])
  }

  function Within(r: Range): Bar -> bool {
    (b: Bar) => r.Has(b.ts)
  }

  /** The venue's bars with a close stamp in the range. */
  function Slice(venue: seq<Bar>, r: Range): seq<Bar> {
    Filter(venue, Within(r))
  }

  function Collected(bars: seq<Bar>): seq<Bar> {
    Deduped(StableSort(bars, SoonerBar))
  }

  ghost predicate AllFrom(bars: seq<Bar>, venue: seq<Bar>) {
    forall b :: b in bars ==> b in venue
  }

  lemma {:induction false} FilterFacts(s: seq<Bar>, p: Bar -> bool)
    ensures forall b :: b in Filter(s, p) <==> b in s && p(b)
    ensures StrictlyAscending(s) ==> StrictlyAscending(Filter(s, p))
  {
    if s != [] {
      var init, last := s[..|s| - 1], s[|s| - 1];
      assert s == init + [last];
      FilterFacts(init, p);
      if StrictlyAscending(s) {
        FilterPush(s, p);
      }
    }
  }

  lemma FilterPush(s: seq<Bar>, p: Bar -> bool)
    requires s != [] && StrictlyAscending(s) && StrictlyAscending(Filter(s[..|s| - 1], p))
    requires AllFrom(Filter(s[..|s| - 1], p), s[..|s| - 1])
    ensures StrictlyAscending(Filter(s, p))
  {
    var init, last := s[..|s| - 1], s[|s| - 1];
    var kept := Filter(init, p);
    forall i | 0 <= i < |kept| ensures kept[i].ts < last.ts {
      assert kept[i] in kept;
      var k :| 0 <= k < |init| && init[k] == kept[i];
      assert s[k].ts < s[|s| - 1].ts;
    }
  }

  lemma SliceFacts(venue: seq<Bar>, r: Range)
    ensures forall b :: b in Slice(venue, r) <==> b in venue && r.Has(b.ts)
    ensures StrictlyAscending(venue) ==> StrictlyAscending(Slice(venue, r))
  {
    FilterFacts(venue, Within(r));
  }

  ghost predicate HasStamp(s: seq<Bar>, ts: int) {
    exists c :: c in s && c.ts == ts
  }

  ghost predicate EndsAt(s: seq<Bar>, ts: int) {
    s != [] && s[|s| - 1].ts == ts
  }

  lemma {:induction false} DedupedElements(s: seq<Bar>)
    ensures AllFrom(Deduped(s), s)
    ensures forall b :: b in s ==> HasStamp(Deduped(s), b.ts)
  {
    if s != [] {
      var init, last := s[..|s| - 1], s[|s| - 1];
      assert s == init + [last];
      DedupedElements(init);
      var kept, all := Deduped(init), Deduped(s);
      assert all[|all| - 1] in all && all[|all| - 1].ts == last.ts && HasStamp(all, last.ts);
      forall b | b in init ensures HasStamp(all, b.ts) { StampStays(kept, all, b.ts); }
    }
  }

  lemma StampStays(kept: seq<Bar>, all: seq<Bar>, ts: int)
    requires HasStamp(kept, ts) && kept <= all
    ensures HasStamp(all, ts)
  {
    var c :| c in kept && c.ts == ts;
    assert c in all;
  }

  lemma {:induction false} DedupedAscends(s: seq<Bar>)
    requires Sorted(s, SoonerBar)
    ensures StrictlyAscending(Deduped(s))
    ensures s != [] ==> EndsAt(Deduped(s), s[|s| - 1].ts)
  {
    if s != [] {
      var init, last := s[..|s| - 1], s[|s| - 1];
      DedupedAscends(init);
      if init != [] { assert !SoonerBar(s[|s| - 1], s[|s| - 2]); }
      DedupedPush(s);
    }
  }

  lemma DedupedPush(s: seq<Bar>)
    requires s != [] && StrictlyAscending(Deduped(s[..|s| - 1]))
    requires var kept := Deduped(s[..|s| - 1]); kept != [] ==> kept[|kept| - 1].ts <= s[|s| - 1].ts
    ensures StrictlyAscending(Deduped(s)) && EndsAt(Deduped(s), s[|s| - 1].ts)
  {
    var kept, all := Deduped(s[..|s| - 1]), Deduped(s);
    if all != kept {
      assert all == kept + [s[|s| - 1]];
      forall i, j | 0 <= i < j < |all| ensures all[i].ts < all[j].ts {
        if j == |kept| && i < |kept| - 1 { assert kept[i].ts < kept[|kept| - 1].ts; }
      }
    }
  }

  /** A venue has one bar per stamp. */
  lemma SameStampSameBar(venue: seq<Bar>, a: Bar, b: Bar)
    requires StrictlyAscending(venue) && a in venue && b in venue && a.ts == b.ts
    ensures a == b
  {
  }

  lemma CollectedFacts(bars: seq<Bar>, venue: seq<Bar>)
    requires StrictlyAscending(venue) && AllFrom(bars, venue)
    ensures StrictlyAscending(Collected(bars))
    ensures forall b :: b in Collected(bars) <==> b in bars
  {
    hide StableSort, Deduped;
    var sorted := StableSort(bars, SoonerBar);
    SoonerIsKeyOrder();
    SortSorts(bars, SoonerBar);
    DedupedAscends(sorted);
    DedupedElements(sorted);
    SortElements(bars);
    forall b | b in bars ensures b in Collected(bars) {
      StampFindsBar(Collected(bars), venue, b);
    }
  }

  lemma SortElements(bars: seq<Bar>)
    ensures forall b :: b in StableSort(bars, SoonerBar) <==> b in bars
  {
    SortIsPermutation(bars, SoonerBar);
    hide StableSort;
    forall b ensures b in StableSort(bars, SoonerBar) <==> b in bars {
      assert b in StableSort(bars, SoonerBar) <==> b in multiset(StableSort(bars, SoonerBar));
      assert b in bars <==> b in multiset(bars);
    }
  }

  lemma StampFindsBar(s: seq<Bar>, venue: seq<Bar>, b: Bar)
    requires StrictlyAscending(venue) && AllFrom(s, venue) && b in venue && HasStamp(s, b.ts)
    ensures b in s
  {
    var c :| c in s && c.ts == b.ts;
    SameStampSameBar(venue, b, c);
  }

  lemma SoonerIsKeyOrder()
    ensures KeyOrder(SoonerBar)
  {
  }

  /** Strictly ascending bars are determined by which bars they are. */
  lemma {:induction false} AscendingIsUnique(s: seq<Bar>, t: seq<Bar>)
    requires StrictlyAscending(s) && StrictlyAscending(t) && forall b :: b in s <==> b in t
    ensures s == t
  {
    if s == [] {
      SomeMember(t);
    } else {
      assert s[|s| - 1] in t;
      assert t[|t| - 1] in t && t[|t| - 1] in s;
      LastIsLatest(s, t[|t| - 1]);
      LastIsLatest(t, s[|s| - 1]);
      var a, b := s[..|s| - 1], t[..|t| - 1];
      SameLast(s, t);
      forall x ensures x in a <==> x in b { InitMembers(s, x); InitMembers(t, x); }
      AscendingIsUnique(a, b);
      assert s == a + [s[|s| - 1]] && t == b + [t[|t| - 1]];
    }
  }

  lemma SomeMember(t: seq<Bar>)
    ensures t == [] || exists b :: b in t
  {
    if t != [] { assert t[0] in t; }
  }

  lemma LastIsLatest(s: seq<Bar>, b: Bar)
    requires StrictlyAscending(s) && b in s
    ensures b.ts <= s[|s| - 1].ts && (b.ts == s[|s| - 1].ts ==> b == s[|s| - 1])
  {
  }

  lemma SameLast(s: seq<Bar>, t: seq<Bar>)
    requires s != [] && t != [] && StrictlyAscending(s) && StrictlyAscending(t)
    requires s[|s| - 1] in t && t[|t| - 1] in s
    ensures s[|s| - 1] == t[|t| - 1]
  {
    LastIsLatest(s, t[|t| - 1]);
    LastIsLatest(t, s[|s| - 1]);
  }

  lemma InitMembers(s: seq<Bar>, x: Bar)
    requires s != [] && StrictlyAscending(s)
    ensures x in s[..|s| - 1] <==> x in s && x != s[|s| - 1]
  {
    assert s == s[..|s| - 1] + [s[|s| - 1]];
  }
}
