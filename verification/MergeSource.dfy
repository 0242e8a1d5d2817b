/** The merging source in place, against the linear merge it replaces. */
module MergeSource {
  import opened Prelude
  import opened Merge

  // ---------------------------------------------------------------- the linear merge

  /** The stamp each source offers next; none when it is exhausted. */
  function Stamps<E>(pending: seq<seq<E>>, ts: E -> int): Keys {
    seq(|pending|, i requires 0 <= i < |pending| => if pending[i] == [] then None else Some(ts(pending[i][0])))
  }

  /** Scan the first k sources for the earliest stamp, keeping the earlier source on a tie. */
  function Earliest(keys: Keys, k: nat): (r: Option<nat>)
    requires k <= |keys|
    ensures r.Some? ==> r.value < k && keys[r.value].Some?
  {
    if k == 0 then
      None
    else
      var best := Earliest(keys, k - 1);
      if keys[k - 1].Some? && (best.None? || keys[k - 1].value < keys[best.value].value) then Some(k - 1) else best
  }

  /** One step of the linear merge: the event emitted, by which source, and what is left. */
  function NextOf<E>(pending: seq<seq<E>>, ts: E -> int): (Option<(nat, E)>, seq<seq<E>>) {
    match Earliest(Stamps(pending, ts), |pending|)
    case None => (None, pending)
    case Some(i) => (Some((i, pending[i][0])), pending[i := pending[i][1..]])
  }

  function Size<E>(pending: seq<seq<E>>): nat {
    if pending == [] then 0 else Size(pending[..|pending| - 1]) + |pending[|pending| - 1]|
  }

  lemma {:induction false} SizeShrinks<E>(pending: seq<seq<E>>, i: nat)
    requires i < |pending| && pending[i] != []
    ensures Size(pending[i := pending[i][1..]]) == Size(pending) - 1
  {
    var init, next := pending[..|pending| - 1], pending[i := pending[i][1..]];
    if i < |pending| - 1 {
      assert next[..|next| - 1] == init[i := init[i][1..]];
      SizeShrinks(init, i);
    } else {
      assert next[..|next| - 1] == init;
    }
  }

  /** The whole stream, each event with the source it came from. */
  function Merged<E>(pending: seq<seq<E>>, ts: E -> int): seq<(nat, E)>
    decreases Size(pending)
  {
    var (emitted, rest) := NextOf(pending, ts);
    if emitted.None? then
      []
    else
      SizeShrinks(pending, emitted.value.0);
      [emitted.value] + Merged(rest, ts)
  }

  // ---------------------------------------------------------------- the tree agrees with the scan

  lemma {:induction false} EarliestIsLeast(keys: Keys, k: nat)
    requires k <= |keys|
    ensures var best := Earliest(keys, k);
            && (best.None? ==> forall s :: 0 <= s < k ==> keys[s].None?)
            && (best.Some? ==> forall s :: 0 <= s < k && s != best.value ==> Beats(keys, best.value, s))
  {
    if k > 0 {
      EarliestIsLeast(keys, k - 1);
      var best := Earliest(keys, k);
      if best.Some? {
        forall s | 0 <= s < k && s != best.value ensures Beats(keys, best.value, s) {
          if Earliest(keys, k - 1).Some? && s < k - 1 && s != Earliest(keys, k - 1).value {
            assert Beats(keys, Earliest(keys, k - 1).value, s);
          }
        }
      }
    }
  }

  /** A slot no other beats is the one the scan finds, or they are all exhausted. */
  lemma LeastIsEarliest(keys: Keys, padded: Keys, slot: nat)
    requires |keys| <= |padded| && padded[..|keys|] == keys && forall s :: |keys| <= s < |padded| ==> padded[s].None?
    requires slot < |padded| && forall s :: 0 <= s < |padded| ==> s == slot || Beats(padded, slot, s)
    ensures Earliest(keys, |keys|) == if slot < |keys| && keys[slot].Some? then Some(slot) else None
  {
    EarliestIsLeast(keys, |keys|);
    var best := Earliest(keys, |keys|);
    forall s: nat | s < |keys| ensures padded[s] == keys[s] { assert padded[..|keys|][s] == keys[s]; }
    if best.Some? {
      assert best.value == slot || Beats(padded, best.value, slot) by {
        assert slot < |keys| && slot != best.value ==> Beats(keys, best.value, slot);
      }
      OnlyOneLeast(padded, slot, best.value);
    }
  }

  lemma OnlyOneLeast(keys: Keys, a: nat, b: nat)
    requires a < |keys| && b < |keys| && (a == b || Beats(keys, a, b)) && (a == b || Beats(keys, b, a))
    ensures a == b
  {
    BeatsIsTotal(keys, a, b, a);
  }

  function Buffered<E>(heads: seq<Option<E>>, sources: seq<seq<E>>): seq<seq<E>>
    requires |heads| == |sources|
  {
    seq(|sources|, i requires 0 <= i < |sources| => Listed(heads[i]) + sources[i])
  }

  lemma NothingBuffered<E>(heads: seq<Option<E>>, sources: seq<seq<E>>)
    requires |heads| == |sources| && forall i :: 0 <= i < |heads| ==> heads[i].None?
    ensures Buffered(heads, sources) == sources
  {
    forall i | 0 <= i < |sources| ensures Buffered(heads, sources)[i] == sources[i] {
      assert Listed(heads[i]) == [];
    }
  }

  function Dropped<E>(s: seq<E>): seq<E> {
    if s == [] then [] else s[1..]
  }

  function First<E>(s: seq<E>): Option<E> {
    if s == [] then None else Some(s[0])
  }

  /** Emitting a head and refilling it takes one event off its source. */
  lemma Refilled<E>(heads: seq<Option<E>>, sources: seq<seq<E>>, i: nat)
    requires |heads| == |sources| && i < |heads| && heads[i].Some?
    ensures Buffered(heads[i := First(sources[i])], sources[i := Dropped(sources[i])])
            == Buffered(heads, sources)[i := Buffered(heads, sources)[i][1..]]
  {
    assert Listed(First(sources[i])) + Dropped(sources[i]) == sources[i];
    assert ([heads[i].value] + sources[i])[1..] == sources[i];
  }

  lemma HeadFirst<E>(heads: seq<Option<E>>, sources: seq<seq<E>>, i: nat)
    requires |heads| == |sources| && i < |heads| && heads[i].Some?
    ensures Buffered(heads, sources)[i] != [] && Buffered(heads, sources)[i][0] == heads[i].value
  {
  }

  // ---------------------------------------------------------------- the merged stream

  /** The events of one source, in the order emitted. */
  function From<E>(stream: seq<(nat, E)>, i: nat): seq<E> {
    if stream == [] then []
    else (if stream[0].0 == i then [stream[0].1] else []) + From(stream[1..], i)
  }

  /** Nothing is lost, duplicated or reordered within a source. */
  lemma {:induction false} EachSourceIsKept<E>(pending: seq<seq<E>>, ts: E -> int, i: nat)
    ensures From(Merged(pending, ts), i) == if i < |pending| then pending[i] else []
    decreases Size(pending)
  {
    var (emitted, rest) := NextOf(pending, ts);
    if emitted.None? {
      EarliestIsLeast(Stamps(pending, ts), |pending|);
      if i < |pending| { assert Stamps(pending, ts)[i].None?; }
    } else {
      SizeShrinks(pending, emitted.value.0);
      EachSourceIsKept(rest, ts, i);
      assert Merged(pending, ts)[1..] == Merged(rest, ts);
    }
  }

  /** Emission order: by stamp, and among equal stamps by source. */
  ghost predicate InOrder<E>(a: (nat, E), b: (nat, E), ts: E -> int) {
    ts(a.1) < ts(b.1) || (ts(a.1) == ts(b.1) && a.0 <= b.0)
  }

  ghost predicate NonDecreasing<E>(s: seq<E>, ts: E -> int) {
    forall i, j :: 0 <= i < j < |s| ==> ts(s[i]) <= ts(s[j])
  }

  ghost predicate AllNonDecreasing<E>(pending: seq<seq<E>>, ts: E -> int) {
    forall i :: 0 <= i < |pending| ==> NonDecreasing(pending[i], ts)
  }

  /** Every event still to come is from a source, at or after that source's head. */
  ghost predicate Awaited<E>(pending: seq<seq<E>>, e: (nat, E)) {
    e.0 < |pending| && e.1 in pending[e.0]
  }

  lemma {:induction false} StreamIsAwaited<E>(pending: seq<seq<E>>, ts: E -> int)
    ensures forall e :: e in Merged(pending, ts) ==> Awaited(pending, e)
    decreases Size(pending)
  {
    var (emitted, rest) := NextOf(pending, ts);
    if emitted.Some? {
      var i := emitted.value.0;
      SizeShrinks(pending, i);
      StreamIsAwaited(rest, ts);
      forall e | e in Merged(pending, ts) ensures Awaited(pending, e) {
        if e in Merged(rest, ts) { assert Awaited(rest, e); }
      }
    }
  }

  lemma NextComesFirst<E>(pending: seq<seq<E>>, ts: E -> int, e: (nat, E))
    requires AllNonDecreasing(pending, ts) && Awaited(pending, e)
    ensures var emitted := NextOf(pending, ts).0; emitted.Some? && InOrder(emitted.value, e, ts)
  {
    var keys := Stamps(pending, ts);
    EarliestIsLeast(keys, |pending|);
    assert keys[e.0].Some?;
    var best := Earliest(keys, |pending|).value;
    assert best == e.0 || Beats(keys, best, e.0);
    var k :| 0 <= k < |pending[e.0]| && pending[e.0][k] == e.1;
    assert NonDecreasing(pending[e.0], ts);
    assert k > 0 ==> ts(pending[e.0][0]) <= ts(pending[e.0][k]);
  }

  /** Over non-decreasing sources the stream is in order: never back in time, ties to the lower source. */
  lemma {:induction false} StreamIsInOrder<E>(pending: seq<seq<E>>, ts: E -> int)
    requires AllNonDecreasing(pending, ts)
    ensures forall j, k :: 0 <= j < k < |Merged(pending, ts)| ==> InOrder(Merged(pending, ts)[j], Merged(pending, ts)[k], ts)
    decreases Size(pending)
  {
    var (emitted, rest) := NextOf(pending, ts);
    if emitted.Some? {
      var i := emitted.value.0;
      SizeShrinks(pending, i);
      assert NonDecreasing(pending[i], ts);
      assert AllNonDecreasing(rest, ts);
      StreamIsInOrder(rest, ts);
      StreamIsAwaited(pending, ts);
      var stream, tail := Merged(pending, ts), Merged(rest, ts);
      assert stream == [emitted.value] + tail;
      hide Merged, NextOf, InOrder, Awaited;
      forall j, k | 0 <= j < k < |stream| ensures InOrder(stream[j], stream[k], ts) {
        if j == 0 {
          assert stream[k] in stream;
          NextComesFirst(pending, ts, stream[k]);
        } else {
          assert stream[j] == tail[j - 1] && stream[k] == tail[k - 1];
        }
      }
    }
  }

  ghost predicate Ordered<E>(stream: seq<(nat, E)>, ts: E -> int) {
    forall j, k :: 0 <= j < k < |stream| ==> InOrder(stream[j], stream[k], ts)
  }

  /** The stream hands out exactly these sources' events, each in its own order. */
  ghost predicate Interleaves<E>(stream: seq<(nat, E)>, pending: seq<seq<E>>) {
    forall i: nat :: From(stream, i) == if i < |pending| then pending[i] else []
  }

  lemma {:induction false} FirstFrom<E>(stream: seq<(nat, E)>, i: nat) returns (k: nat)
    requires From(stream, i) != []
    ensures k < |stream| && stream[k] == (i, From(stream, i)[0])
  {
    if stream[0].0 == i {
      k := 0;
    } else {
      k := FirstFrom(stream[1..], i);
      k := k + 1;
    }
  }

  lemma FirstIsAHead<E>(stream: seq<(nat, E)>, pending: seq<seq<E>>)
    requires Interleaves(stream, pending) && stream != []
    ensures Awaited(pending, stream[0]) && pending[stream[0].0][0] == stream[0].1
  {
    var i := stream[0].0;
    assert From(stream, i) == [stream[0].1] + From(stream[1..], i);
    assert From(stream, i) == if i < |pending| then pending[i] else [];
  }

  lemma NextIsListed<E>(stream: seq<(nat, E)>, pending: seq<seq<E>>, ts: E -> int) returns (k: nat)
    requires Interleaves(stream, pending) && NextOf(pending, ts).0.Some?
    ensures k < |stream| && Some(stream[k]) == NextOf(pending, ts).0
  {
    var b := NextOf(pending, ts).0.value.0;
    assert From(stream, b) == pending[b];
    k := FirstFrom(stream, b);
  }

  lemma HeadIsNext<E>(stream: seq<(nat, E)>, pending: seq<seq<E>>, ts: E -> int)
    requires AllNonDecreasing(pending, ts) && Interleaves(stream, pending) && Ordered(stream, ts)
    ensures stream == [] <==> NextOf(pending, ts).0 == None
    ensures stream != [] ==> NextOf(pending, ts).0 == Some(stream[0])
  {
    if NextOf(pending, ts).0.Some? {
      var k := NextIsListed(stream, pending, ts);
      hide Interleaves, AllNonDecreasing;
      FirstIsAHead(stream, pending);
      NextComesFirst(pending, ts, stream[0]);
      assert k > 0 ==> InOrder(stream[0], stream[k], ts);
    } else if stream != [] {
      FirstIsAHead(stream, pending);
      NextComesFirst(pending, ts, stream[0]);
    }
  }

  /** The merged stream is the only one in order that interleaves the sources. */
  lemma {:induction false} StreamIsUnique<E>(stream: seq<(nat, E)>, pending: seq<seq<E>>, ts: E -> int)
    requires AllNonDecreasing(pending, ts) && Interleaves(stream, pending) && Ordered(stream, ts)
    ensures stream == Merged(pending, ts)
    decreases |stream|
  {
    HeadIsNext(stream, pending, ts);
    if stream != [] {
      var (emitted, rest) := NextOf(pending, ts);
      var b := emitted.value.0;
      assert NonDecreasing(pending[b], ts);
      forall i: nat ensures From(stream[1..], i) == if i < |rest| then rest[i] else [] {
        assert From(stream, i) == (if i == b then [stream[0].1] else []) + From(stream[1..], i);
      }
      StreamIsUnique(stream[1..], rest, ts);
    }
  }

  // ---------------------------------------------------------------- in place

  class MergeSource<E(!new)> {
    const ts: E -> int
    var sources: seq<seq<E>>
    const heads: array<Option<E>>
    var tree: TournamentTree?

    function KeyOf(head: Option<E>): Option<int> {
      if head.Some? then Some(ts(head.value)) else None
    }

    ghost predicate Valid()
      reads this, heads, if tree == null then {} else {tree.key, tree.tree}
    {
      && heads.Length == |sources|
      && (tree == null ==> forall i :: 0 <= i < heads.Length ==> heads[i].None?)
      && (tree != null ==>
            && tree.Valid() && tree.key.Length >= |sources| && heads as object !in {tree.key as object, tree.tree as object}
            && (forall i :: 0 <= i < |sources| ==> tree.key[i] == KeyOf(heads[i]) && (heads[i].None? ==> sources[i] == []))
            && (forall i :: |sources| <= i < tree.key.Length ==> tree.key[i].None?))
    }

    /** What is still to come from each source: its buffered head, then the rest. */
    ghost function Pending(): seq<seq<E>>
      requires heads.Length == |sources|
      reads this, heads
    {
      Buffered(heads[..], sources)
    }

    constructor (sources: seq<seq<E>>, ts: E -> int)
      ensures Valid() && Pending() == sources && this.ts == ts && fresh(heads) && tree == null
    {
      this.ts, this.sources, this.tree := ts, sources, null;
      heads := new Option<E>[|sources|](_ => None);
      new;
      NothingBuffered(heads[..], sources);
    }

    /** Pull one event from a source, when it has one. */
    method Pull(i: nat) returns (e: Option<E>)
      requires i < |sources|
      modifies this`sources
      ensures e == First(old(sources)[i])
      ensures sources == old(sources)[i := Dropped(old(sources)[i])]
    {
      if sources[i] == [] {
        return None;
      }
      e := Some(sources[i][0]);
      sources := sources[i := sources[i][1..]];
    }

    /** Buffer one head per source. */
    method FillHeads()
      requires heads.Length == |sources| && forall i :: 0 <= i < heads.Length ==> heads[i].None?
      modifies this`sources, heads
      ensures |sources| == |old(sources)| && Pending() == old(sources)
      ensures forall i :: 0 <= i < |sources| && heads[i].None? ==> sources[i] == []
    {
      ghost var before := sources;
      for i := 0 to |sources|
        invariant |sources| == |before| == heads.Length
        invariant forall j :: 0 <= j < i ==> Listed(heads[j]) + sources[j] == before[j] && (heads[j].None? ==> sources[j] == [])
        invariant forall j :: i <= j < |sources| ==> heads[j].None? && sources[j] == before[j]
      {
        var head := Pull(i);
        heads[i] := head;
        assert Listed(heads[i]) + sources[i] == before[i];
      }
      assert Buffered(heads[..], sources) == before;
    }

    /** Buffer one head per source and build the tree over their stamps. */
    method Prime()
      requires Valid() && tree == null
      modifies this`sources, this`tree, heads
      ensures Valid() && tree != null && fresh(tree) && fresh(tree.key) && fresh(tree.tree)
      ensures Pending() == old(Pending())
    {
      hide Tournament, Buffered;
      NothingBuffered(heads[..], sources);
      FillHeads();
      var keys := seq(|sources|, i requires 0 <= i < heads.Length reads heads => KeyOf(heads[i]));
      tree := new TournamentTree(keys);
      assert forall i :: 0 <= i < |sources| ==> tree.key[i] == tree.key[..][i];
      assert forall i :: |sources| <= i < tree.key.Length ==> tree.key[i] == tree.key[..][i];
    }

    /** Emit the buffered head of a source, refill it and restore its leaf. */
    method Emit(chosen: nat) returns (e: E)
      requires Valid() && tree != null && chosen < |sources| && heads[chosen].Some?
      modifies this`sources, heads, tree.key, tree.tree
      ensures Valid() && old(Pending())[chosen] != [] && e == old(Pending())[chosen][0]
      ensures Pending() == old(Pending())[chosen := old(Pending())[chosen][1..]]
    {
      hide Tournament, Buffered;
      e := heads[chosen].value;
      Refilled(heads[..], sources, chosen);
      HeadFirst(heads[..], sources, chosen);
      ghost var before := heads[..];
      var refill := Pull(chosen);
      heads[chosen] := refill;
      assert heads[..] == before[chosen := refill];
      tree.Set(chosen, KeyOf(refill));
    }

    /** The next event of the linear merge, found by the tree. */
    method NextEvent() returns (r: Option<E>)
      requires Valid()
      modifies this`sources, this`tree, heads
      modifies if tree == null then {} else {tree.key, tree.tree}
      ensures Valid() && (old(tree) == null ==> fresh(tree) && fresh(tree.key) && fresh(tree.tree))
      ensures old(tree) != null ==> tree == old(tree)
      ensures var (emitted, rest) := NextOf(old(Pending()), ts);
              && r == (if emitted.Some? then Some(emitted.value.1) else None)
              && Pending() == rest
    {
      hide Tournament;
      if tree == null {
        Prime();
      }
      var chosen := tree.Winner();
      StampsAreKeys(chosen);
      if chosen >= |sources| || heads[chosen].None? {
        return None;
      }
      var e := Emit(chosen);
      r := Some(e);
    }

    lemma StampsAreKeys(slot: nat)
      requires Valid() && tree != null && slot < tree.key.Length
      requires forall s :: 0 <= s < tree.key.Length ==> s == slot || Beats(tree.key[..], slot, s)
      ensures Earliest(Stamps(Pending(), ts), |sources|) == if slot < |sources| && heads[slot].Some? then Some(slot) else None
    {
      LeastIsEarliest(Stamps(Pending(), ts), tree.key[..], slot);
    }
  }
}
