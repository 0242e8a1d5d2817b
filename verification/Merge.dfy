/**
 * Merging several event sources into one. The winner among the buffered heads is kept by a
 * tournament tree in heap layout; the stream it yields is that of the linear merge: time order,
 * ties to the lower source, each source's own order, nothing lost and nothing twice.
 */
module Merge {
  import opened Prelude

  // ---------------------------------------------------------------- the order of slots

  type Keys = seq<Option<int>>

  /** Slot a is emitted before slot b: the smaller (stamp, slot), an exhausted slot last. */
  predicate Beats(keys: Keys, a: nat, b: nat)
    requires a < |keys| && b < |keys|
  {
    match (keys[a], keys[b])
    case (Some(x), Some(y)) => x < y || (x == y && a < b)
    case (Some(_), None) => true
    case (None, Some(_)) => false
    case (None, None) => a < b
  }

  /** The source's comparison of two slots. */
  function Better(keys: Keys, a: nat, b: nat): (r: nat)
    requires a < |keys| && b < |keys|
    ensures r == a || r == b
    ensures r == a || Beats(keys, b, a)
    ensures r == b || Beats(keys, a, b)
  {
    match (keys[a], keys[b])
    case (None, None) => if a <= b then a else b
    case (None, Some(_)) => b
    case (Some(_), None) => a
    case (Some(x), Some(y)) => if x < y || (x == y && a <= b) then a else b
  }

  lemma BeatsIsTotal(keys: Keys, a: nat, b: nat, c: nat)
    requires a < |keys| && b < |keys| && c < |keys|
    ensures a == b || Beats(keys, a, b) || Beats(keys, b, a)
    ensures !(Beats(keys, a, b) && Beats(keys, b, a))
    ensures Beats(keys, a, b) && Beats(keys, b, c) ==> Beats(keys, a, c)
  {
  }

  // ---------------------------------------------------------------- the tree in heap layout

  /** Node i lies on the path from node j to the root. */
  predicate OnRootPath(i: nat, j: nat) {
    i == j || (j > i && OnRootPath(i, j / 2))
  }

  lemma {:induction false} ParentOnPath(i: nat, j: nat)
    requires i >= 2 && OnRootPath(i, j)
    ensures OnRootPath(i / 2, j)
    decreases j
  {
    if i == j {
      assert OnRootPath(i / 2, j / 2);
    } else {
      ParentOnPath(i, j / 2);
    }
  }

  /** A node holds a slot of its own subtree. */
  ghost predicate Placed(n: nat, t: seq<nat>, i: nat)
    requires i < |t|
  {
    t[i] < n && OnRootPath(i, n + t[i])
  }

  /** An inner node holds the better of its children. */
  ghost predicate Settled(keys: Keys, t: seq<nat>, i: nat)
    requires 2 * i + 1 < |t|
  {
    t[2 * i] < |keys| && t[2 * i + 1] < |keys| && t[i] == Better(keys, t[2 * i], t[2 * i + 1])
  }

  ghost predicate Leaves(n: nat, t: seq<nat>)
    requires |t| == 2 * n
  {
    forall i :: n <= i < 2 * n ==> t[i] == i - n
  }

  /** The inner nodes from i down are done. */
  ghost predicate Built(keys: Keys, t: seq<nat>, i: nat) {
    var n := |keys|;
    && 1 <= i <= n && |t| == 2 * n && Leaves(n, t)
    && (forall j :: i <= j < 2 * n ==> Placed(n, t, j))
    && (forall j :: i <= j < n ==> Settled(keys, t, j))
  }

  /** Only nodes on the path from i to the root may be out of date. */
  ghost predicate Repairing(keys: Keys, t: seq<nat>, i: nat) {
    var n := |keys|;
    && i < n && |t| == 2 * n && Leaves(n, t)
    && (forall j :: 1 <= j < 2 * n ==> Placed(n, t, j))
    && (forall j :: 1 <= j < n && !OnRootPath(j, i) ==> Settled(keys, t, j))
  }

  ghost predicate Tournament(keys: Keys, t: seq<nat>) {
    Built(keys, t, 1)
  }

  lemma LeavesArePlaced(keys: Keys, t: seq<nat>)
    requires |keys| >= 1 && |t| == 2 * |keys| && Leaves(|keys|, t)
    ensures Built(keys, t, |keys|)
  {
  }

  lemma ChildIsPlaced(n: nat, t: seq<nat>, i: nat, c: nat)
    requires 1 <= i < n && |t| == 2 * n && (c == 2 * i || c == 2 * i + 1) && Placed(n, t, c)
    ensures OnRootPath(i, n + t[c])
  {
    ParentOnPath(c, n + t[c]);
  }

  lemma BuildStep(keys: Keys, t: seq<nat>, i: nat)
    requires Built(keys, t, i + 1) && i >= 1
    ensures t[2 * i] < |keys| && t[2 * i + 1] < |keys|
    ensures Built(keys, t[i := Better(keys, t[2 * i], t[2 * i + 1])], i)
  {
    var n := |keys|;
    assert Placed(n, t, 2 * i) && Placed(n, t, 2 * i + 1);
    ChildIsPlaced(n, t, i, 2 * i);
    ChildIsPlaced(n, t, i, 2 * i + 1);
    var u := t[i := Better(keys, t[2 * i], t[2 * i + 1])];
    forall j | i <= j < 2 * n ensures Placed(n, u, j) { assert j > i ==> Placed(n, t, j); }
    forall j | i <= j < n ensures Settled(keys, u, j) { assert j > i ==> Settled(keys, t, j); }
  }

  /** Changing one key can only disturb the nodes above its leaf. */
  lemma KeyDisturbsItsPath(keys: Keys, t: seq<nat>, s: nat, k: Option<int>)
    requires Tournament(keys, t) && s < |keys|
    ensures Repairing(keys[s := k], t, (|keys| + s) / 2)
  {
    var n, more := |keys|, keys[s := k];
    forall j | 1 <= j < n && !OnRootPath(j, (n + s) / 2) ensures Settled(more, t, j) {
      assert Settled(keys, t, j) && Placed(n, t, 2 * j) && Placed(n, t, 2 * j + 1);
      NotUnderneath(n, t, j, 2 * j, s);
      NotUnderneath(n, t, j, 2 * j + 1, s);
    }
    assert forall j :: 1 <= j < 2 * n ==> Placed(n, t, j);
  }

  lemma NotUnderneath(n: nat, t: seq<nat>, j: nat, c: nat, s: nat)
    requires 1 <= j < n && |t| == 2 * n && (c == 2 * j || c == 2 * j + 1) && Placed(n, t, c)
    requires s < n && !OnRootPath(j, (n + s) / 2)
    ensures t[c] != s
  {
    ChildIsPlaced(n, t, j, c);
  }

  lemma RepairPlaces(keys: Keys, t: seq<nat>, i: nat)
    requires Repairing(keys, t, i) && i >= 1
    ensures t[2 * i] < |keys| && t[2 * i + 1] < |keys|
    ensures var u := t[i := Better(keys, t[2 * i], t[2 * i + 1])];
            Leaves(|keys|, u) && forall j :: 1 <= j < 2 * |keys| ==> Placed(|keys|, u, j)
  {
    var n := |keys|;
    assert Placed(n, t, 2 * i) && Placed(n, t, 2 * i + 1);
    ChildIsPlaced(n, t, i, 2 * i);
    ChildIsPlaced(n, t, i, 2 * i + 1);
    var u := t[i := Better(keys, t[2 * i], t[2 * i + 1])];
    forall j | 1 <= j < 2 * n ensures Placed(n, u, j) { assert Placed(n, t, j); }
  }

  lemma RepairStep(keys: Keys, t: seq<nat>, i: nat)
    requires Repairing(keys, t, i) && i >= 1
    ensures t[2 * i] < |keys| && t[2 * i + 1] < |keys|
    ensures Repairing(keys, t[i := Better(keys, t[2 * i], t[2 * i + 1])], i / 2)
  {
    var n := |keys|;
    RepairPlaces(keys, t, i);
    hide Placed, Leaves, Better;
    var u := t[i := Better(keys, t[2 * i], t[2 * i + 1])];
    forall j | 1 <= j < n && !OnRootPath(j, i / 2) ensures Settled(keys, u, j) {
      if j != i {
        assert j != i / 2 && Settled(keys, t, j);
      }
    }
  }

  lemma RepairedIsTournament(keys: Keys, t: seq<nat>)
    requires Repairing(keys, t, 0)
    ensures Tournament(keys, t)
  {
    forall j | 1 <= j < |keys| ensures Settled(keys, t, j) { assert !OnRootPath(j, 0); }
  }

  /** No slot beats the one at a node on the path from its leaf to the root. */
  lemma {:induction false} RootBeats(keys: Keys, t: seq<nat>, i: nat, s: nat)
    requires Tournament(keys, t) && 1 <= i < 2 * |keys| && s < |keys|
    requires t[i] < |keys| && (t[i] == s || Beats(keys, t[i], s))
    ensures t[1] < |keys| && (t[1] == s || Beats(keys, t[1], s))
    decreases i
  {
    if i > 1 {
      var parent := i / 2;
      assert Settled(keys, t, parent) && Placed(|keys|, t, parent);
      assert i == 2 * parent || i == 2 * parent + 1;
      BeatsIsTotal(keys, t[parent], t[i], s);
      RootBeats(keys, t, parent, s);
    }
  }

  /** The root is the least slot. */
  lemma RootIsLeast(keys: Keys, t: seq<nat>, s: nat)
    requires Tournament(keys, t) && s < |keys|
    ensures t[1] < |keys| && (t[1] == s || Beats(keys, t[1], s))
  {
    RootBeats(keys, t, |keys| + s, s);
  }

  function NextPowerOfTwo(n: nat): (p: nat)
    ensures p >= n && p >= 1
    ensures n >= 1 ==> p < 2 * n
  {
    if n <= 1 then 1 else 2 * NextPowerOfTwo((n + 1) / 2)
  }

  class TournamentTree {
    const size: nat
    const key: array<Option<int>>
    const tree: array<nat>

    ghost predicate Valid()
      reads key, tree
    {
      && key.Length == size && tree.Length == 2 * size
      && Tournament(key[..], tree[..])
    }

    /** One leaf per slot, padded with exhausted slots to a power of two. */
    constructor (keys: seq<Option<int>>)
      ensures Valid() && fresh(key) && fresh(tree)
      ensures |keys| <= size && key[..] == keys + seq(size - |keys|, _ => None)
    {
      var n := |keys|;
      size := NextPowerOfTwo(Max(n, 1));
      key := new Option<int>[NextPowerOfTwo(Max(n, 1))](i requires 0 <= i => if i < |keys| then keys[i] else None);
      tree := new nat[2 * NextPowerOfTwo(Max(n, 1))](_ => 0);
      new;
      assert key[..] == keys + seq(size - |keys|, _ => None);
      for s := 0 to size
        invariant forall j :: size <= j < size + s ==> tree[j] == j - size
        invariant key[..] == keys + seq(size - |keys|, _ => None)
      {
        tree[size + s] := s;
      }
      LeavesArePlaced(key[..], tree[..]);
      var i := size;
      while i > 1
        invariant 1 <= i <= size && Built(key[..], tree[..], i)
        invariant key[..] == keys + seq(size - |keys|, _ => None)
      {
        i := i - 1;
        BuildStep(key[..], tree[..], i);
        ghost var before := tree[..];
        tree[i] := Better(key[..], tree[2 * i], tree[2 * i + 1]);
        assert tree[..] == before[i := tree[i]];
      }
    }

    /** The slot to emit next: no other slot beats it. */
    method Winner() returns (slot: nat)
      requires Valid()
      ensures slot < size
      ensures forall s :: 0 <= s < size ==> s == slot || Beats(key[..], slot, s)
    {
      slot := tree[1];
      forall s | 0 <= s < size ensures slot < size && (s == slot || Beats(key[..], slot, s)) {
        RootIsLeast(key[..], tree[..], s);
      }
      RootIsLeast(key[..], tree[..], 0);
    }

    /** Set slot s's key and recompute the nodes on its root path, and no other. */
    method Set(s: nat, k: Option<int>)
      requires Valid() && s < size
      modifies key, tree
      ensures Valid()
      ensures key[..] == old(key[..])[s := k]
      ensures forall i :: 0 <= i < 2 * size && !OnRootPath(i, size + s) ==> tree[i] == old(tree[i])
    {
      KeyDisturbsItsPath(key[..], tree[..], s, k);
      key[s] := k;
      assert key[..] == old(key[..])[s := k];
      var i: nat := (size + s) / 2;
      while i >= 1
        invariant Repairing(key[..], tree[..], i) && (i >= 1 ==> OnRootPath(i, size + s))
        invariant key[..] == old(key[..])[s := k]
        invariant forall j :: 0 <= j < 2 * size && !OnRootPath(j, size + s) ==> tree[j] == old(tree[j])
      {
        RepairStep(key[..], tree[..], i);
        ghost var before := tree[..];
        tree[i] := Better(key[..], tree[2 * i], tree[2 * i + 1]);
        assert tree[..] == before[i := tree[i]];
        if i >= 2 { ParentOnPath(i, size + s); }
        i := i / 2;
      }
      RepairedIsTournament(key[..], tree[..]);
    }
  }
}
