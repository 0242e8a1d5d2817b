/**
 * The combinatorial splits of cross-validation: every way to choose k of n groups as the test
 * set, enumerated in place from one combination to the next in lexicographic order.
 */
module Combinations {

  type Combo = seq<nat>

  ghost predicate IsCombo(c: Combo, lo: nat, n: nat, k: nat) {
    && |c| == k
    && (forall i :: 0 <= i < k ==> lo <= c[i] < n)
    && (forall i, j :: 0 <= i < j < k ==> c[i] < c[j])
  }

  /** Lexicographic order of combinations of one size. */
  ghost predicate Lex(a: Combo, b: Combo)
    requires |a| == |b|
  {
    a != [] && (a[0] < b[0] || (a[0] == b[0] && Lex(a[1..], b[1..])))
  }

  /** Binomial coefficients, by Pascal's rule. */
  function Choose(n: nat, k: nat): nat {
    if k == 0 then 1 else if n == 0 then 0 else Choose(n - 1, k - 1) + Choose(n - 1, k)
  }

  // ---------------------------------------------------------------- the list to produce

  function Prefixed(x: nat, combos: seq<Combo>): seq<Combo> {
    seq(|combos|, i requires 0 <= i < |combos| => [x] + combos[i])
  }

  /** All k-combinations of lo..n: those that start with lo, then those that do not. */
  function AllCombos(lo: nat, n: nat, k: nat): seq<Combo>
    requires lo <= n
    decreases n - lo
  {
    if k == 0 then [[]]
    else if lo == n then []
    else Prefixed(lo, AllCombos(lo + 1, n, k - 1)) + AllCombos(lo + 1, n, k)
  }

  lemma {:induction false} AllCombosCount(lo: nat, n: nat, k: nat)
    requires lo <= n
    ensures |AllCombos(lo, n, k)| == Choose(n - lo, k)
    decreases n - lo
  {
    if k > 0 && lo < n {
      AllCombosCount(lo + 1, n, k - 1);
      AllCombosCount(lo + 1, n, k);
    }
  }

  lemma PrefixedElements(x: nat, combos: seq<Combo>, c: Combo)
    ensures c in Prefixed(x, combos) <==> c != [] && c[0] == x && c[1..] in combos
  {
    if c in Prefixed(x, combos) {
      var i :| 0 <= i < |combos| && Prefixed(x, combos)[i] == c;
      assert c == [x] + combos[i] && c[1..] == combos[i];
    }
    if c != [] && c[0] == x && c[1..] in combos {
      var i :| 0 <= i < |combos| && combos[i] == c[1..];
      assert Prefixed(x, combos)[i] == [x] + c[1..] == c;
    }
  }

  lemma AllCombosUnfold(lo: nat, n: nat, k: nat)
    requires k > 0 && lo < n
    ensures AllCombos(lo, n, k) == Prefixed(lo, AllCombos(lo + 1, n, k - 1)) + AllCombos(lo + 1, n, k)
  {
  }

  lemma EmptyIsTheOnly(lo: nat, n: nat, c: Combo)
    requires lo <= n
    ensures c in AllCombos(lo, n, 0) <==> IsCombo(c, lo, n, 0)
  {
  }

  lemma NoneListed(n: nat, k: nat)
    requires k > 0
    ensures AllCombos(n, n, k) == []
  {
  }

  /** The list holds exactly the combinations. */
  lemma {:induction false} AllCombosAreAll(lo: nat, n: nat, k: nat, c: Combo)
    requires lo <= n
    ensures c in AllCombos(lo, n, k) <==> IsCombo(c, lo, n, k)
    decreases n - lo
  {
    hide AllCombos, IsCombo, Prefixed;
    if k == 0 {
      EmptyIsTheOnly(lo, n, c);
    } else if lo < n {
      AllCombosAreAll(lo + 1, n, k, c);
      PrefixedElements(lo, AllCombos(lo + 1, n, k - 1), c);
      if c != [] {
        AllCombosAreAll(lo + 1, n, k - 1, c[1..]);
        HeadedBy(lo, n, k, c);
      }
      AllCombosUnfold(lo, n, k);
      EmptyIsNoCombo(lo, n, k);
    } else {
      NoneListed(n, k);
      NothingLeft(n, k, c);
    }
  }

  lemma EmptyIsNoCombo(lo: nat, n: nat, k: nat)
    requires k > 0
    ensures !IsCombo([], lo, n, k) && !IsCombo([], lo + 1, n, k)
  {
  }

  lemma NothingLeft(n: nat, k: nat, c: Combo)
    requires k > 0
    ensures !IsCombo(c, n, n, k)
  {
    if |c| == k { assert !(n <= c[0] < n); }
  }

  lemma HeadedBy(lo: nat, n: nat, k: nat, c: Combo)
    requires k > 0 && lo < n && c != []
    ensures IsCombo(c, lo, n, k) <==> (c[0] == lo && IsCombo(c[1..], lo + 1, n, k - 1)) || IsCombo(c, lo + 1, n, k)
  {
    if c[0] == lo && IsCombo(c[1..], lo + 1, n, k - 1) {
      forall i, j | 0 <= i < j < k ensures c[i] < c[j] {
        assert c[j] == c[1..][j - 1];
        if i > 0 { assert c[i] == c[1..][i - 1]; }
      }
      forall i | 0 <= i < k ensures lo <= c[i] < n { if i > 0 { assert c[i] == c[1..][i - 1]; } }
    }
  }

  lemma HeadDecides(lo: nat, n: nat, k: nat, a: Combo, b: Combo)
    requires |a| == k - 1 && IsCombo(b, lo + 1, n, k) && k > 0
    ensures Lex([lo] + a, b)
  {
    assert b[0] >= lo + 1;
  }

  lemma SameHead(x: nat, a: Combo, b: Combo)
    requires |a| == |b| && Lex(a, b)
    ensures Lex([x] + a, [x] + b)
  {
    assert ([x] + a)[1..] == a && ([x] + b)[1..] == b;
  }

  ghost predicate Below(a: Combo, b: Combo) {
    |a| == |b| && Lex(a, b)
  }

  ghost predicate Increasing(combos: seq<Combo>) {
    forall i, j :: 0 <= i < j < |combos| ==> Below(combos[i], combos[j])
  }

  lemma PrefixedIncreases(x: nat, combos: seq<Combo>)
    requires Increasing(combos)
    ensures Increasing(Prefixed(x, combos))
  {
    hide Lex;
    var all := Prefixed(x, combos);
    forall i, j | 0 <= i < j < |all| ensures Below(all[i], all[j]) {
      assert Below(combos[i], combos[j]);
      SameHead(x, combos[i], combos[j]);
    }
  }

  lemma JoinedIncreases(a: seq<Combo>, b: seq<Combo>)
    requires Increasing(a) && Increasing(b) && forall x, y :: x in a && y in b ==> Below(x, y)
    ensures Increasing(a + b)
  {
    hide Below;
    var all := a + b;
    forall i, j | 0 <= i < j < |all| ensures Below(all[i], all[j]) {
      if i < |a| <= j {
        assert a[i] in a && b[j - |a|] in b;
      } else if j < |a| {
        assert Below(a[i], a[j]);
      } else {
        assert Below(b[i - |a|], b[j - |a|]);
      }
    }
  }

  /** And strictly increasing, so each exactly once. */
  lemma {:induction false} AllCombosIncrease(lo: nat, n: nat, k: nat)
    requires lo <= n
    ensures Increasing(AllCombos(lo, n, k))
    decreases n - lo
  {
    if k > 0 && lo < n {
      hide Increasing, Prefixed, Below, Lex;
      var first, rest := AllCombos(lo + 1, n, k - 1), AllCombos(lo + 1, n, k);
      AllCombosIncrease(lo + 1, n, k - 1);
      AllCombosIncrease(lo + 1, n, k);
      PrefixedIncreases(lo, first);
      forall x, y | x in Prefixed(lo, first) && y in rest ensures Below(x, y) {
        HeadsComeFirst(lo, n, k, x, y);
      }
      JoinedIncreases(Prefixed(lo, first), rest);
    }
  }

  lemma HeadsComeFirst(lo: nat, n: nat, k: nat, x: Combo, y: Combo)
    requires lo < n && k > 0 && x in Prefixed(lo, AllCombos(lo + 1, n, k - 1)) && y in AllCombos(lo + 1, n, k)
    ensures Below(x, y)
  {
    hide AllCombos, Prefixed;
    PrefixedElements(lo, AllCombos(lo + 1, n, k - 1), x);
    AllCombosAreAll(lo + 1, n, k - 1, x[1..]);
    AllCombosAreAll(lo + 1, n, k, y);
    HeadDecides(lo, n, k, x[1..], y);
    assert x == [lo] + x[1..];
  }

  // ---------------------------------------------------------------- the next combination

  ghost predicate DiffersFirstAt(a: Combo, b: Combo, d: nat) {
    && |a| == |b| && d < |a| && a[d] < b[d]
    && forall i :: 0 <= i < d ==> a[i] == b[i]
  }

  lemma {:induction false} FirstDifference(a: Combo, b: Combo) returns (d: nat)
    requires Below(a, b)
    ensures DiffersFirstAt(a, b, d)
  {
    if a[0] < b[0] {
      d := 0;
    } else {
      var e := FirstDifference(a[1..], b[1..]);
      d := e + 1;
      assert a[d] == a[1..][e] && b[d] == b[1..][e];
      forall i | 0 <= i < d ensures a[i] == b[i] { if i > 0 { assert a[1..][i - 1] == b[1..][i - 1]; } }
    }
  }

  lemma {:induction false} DifferenceOrders(a: Combo, b: Combo, d: nat)
    requires DiffersFirstAt(a, b, d)
    ensures Below(a, b)
    decreases d
  {
    if d > 0 {
      DifferenceOrders(a[1..], b[1..], d - 1);
    }
  }

  /** Not below in any place, and not equal, is above. */
  lemma {:induction false} PointwiseOrders(a: Combo, b: Combo)
    requires |a| == |b| && forall i :: 0 <= i < |a| ==> a[i] <= b[i]
    ensures a == b || Below(a, b)
  {
    if a != [] && a[0] == b[0] {
      PointwiseOrders(a[1..], b[1..]);
      assert a == [a[0]] + a[1..] && b == [b[0]] + b[1..];
    }
  }

  /** The positions from i on hold the largest values they can. */
  ghost predicate Exhausted(c: Combo, n: nat, i: nat) {
    forall j :: i <= j < |c| ==> c[j] == j + n - |c|
  }

  /** Bump the value at the pivot and let the rest follow it. */
  function Advanced(c: Combo, pivot: nat): Combo
    requires pivot < |c|
  {
    seq(|c|, j requires 0 <= j < |c| => if j < pivot then c[j] else c[pivot] + 1 + (j - pivot))
  }

  lemma {:induction false} StrictGrows(c: Combo, lo: nat, n: nat, k: nat, i: nat, j: nat)
    requires IsCombo(c, lo, n, k) && i <= j < k
    ensures c[j] >= c[i] + (j - i)
    decreases j - i
  {
    if i < j {
      StrictGrows(c, lo, n, k, i, j - 1);
      assert c[j - 1] < c[j];
    }
  }

  /** No entry can exceed its last possible value. */
  lemma EntryBound(c: Combo, n: nat, k: nat, i: nat)
    requires IsCombo(c, 0, n, k) && i < k
    ensures c[i] <= i + n - k
  {
    StrictGrows(c, 0, n, k, i, k - 1);
    assert c[k - 1] < n;
  }

  lemma AdvancedIsCombo(c: Combo, n: nat, k: nat, pivot: nat)
    requires IsCombo(c, 0, n, k) && pivot < k && c[pivot] != pivot + n - k
    ensures IsCombo(Advanced(c, pivot), 0, n, k) && Below(c, Advanced(c, pivot))
  {
    EntryBound(c, n, k, pivot);
    var d := Advanced(c, pivot);
    forall i, j | 0 <= i < j < k ensures d[i] < d[j] {
      if i < pivot <= j { assert c[i] < c[pivot]; }
    }
    DifferenceOrders(c, d, pivot);
  }

  /** Nothing lies strictly between a combination and the one it is advanced to. */
  lemma AdvancedIsNext(c: Combo, n: nat, k: nat, pivot: nat, e: Combo)
    requires IsCombo(c, 0, n, k) && pivot < k && Exhausted(c, n, pivot + 1)
    requires IsCombo(e, 0, n, k) && Below(c, e)
    ensures e == Advanced(c, pivot) || Below(Advanced(c, pivot), e)
  {
    hide Lex;
    var d := FirstDifference(c, e);
    EntryBound(e, n, k, d);
    assert d <= pivot;
    var next := Advanced(c, pivot);
    if d < pivot {
      assert DiffersFirstAt(next, e, d);
      DifferenceOrders(next, e, d);
    } else {
      forall j | 0 <= j < k ensures next[j] <= e[j] {
        if j >= pivot { StrictGrows(e, 0, n, k, pivot, j); }
      }
      PointwiseOrders(next, e);
    }
  }

  /** A combination with nothing left to bump is the last. */
  lemma ExhaustedIsLast(c: Combo, n: nat, k: nat, e: Combo)
    requires IsCombo(c, 0, n, k) && Exhausted(c, n, 0) && IsCombo(e, 0, n, k)
    ensures !Below(c, e)
  {
    hide Lex;
    if Below(c, e) {
      var d := FirstDifference(c, e);
      EntryBound(e, n, k, d);
      assert false;
    }
  }

  // ---------------------------------------------------------------- where the next one is listed

  lemma {:induction false} BelowIsAsymmetric(a: Combo, b: Combo)
    requires Below(a, b)
    ensures a != b && !Below(b, a)
    decreases |a|
  {
    if a[0] == b[0] {
      BelowIsAsymmetric(a[1..], b[1..]);
    }
  }

  lemma NextIsListedNext(all: seq<Combo>, n: nat, k: nat, i: nat, pivot: nat)
    requires all == AllCombos(0, n, k) && i < |all| && IsCombo(all[i], 0, n, k)
    requires pivot < k && all[i][pivot] != pivot + n - k && Exhausted(all[i], n, pivot + 1)
    ensures i + 1 < |all| && all[i + 1] == Advanced(all[i], pivot)
  {
    var c, next := all[i], Advanced(all[i], pivot);
    AdvancedIsCombo(c, n, k, pivot);
    AllCombosAreAll(0, n, k, next);
    AllCombosIncrease(0, n, k);
    var j :| 0 <= j < |all| && all[j] == next;
    hide AllCombos, Lex, Below, Advanced;
    BelowIsAsymmetric(c, next);
    assert i < j;
    assert Below(c, all[i + 1]) && all[i + 1] in all;
    AllCombosAreAll(0, n, k, all[i + 1]);
    AdvancedIsNext(c, n, k, pivot, all[i + 1]);
    if Below(next, all[i + 1]) { BelowIsAsymmetric(next, all[i + 1]); }
  }

  lemma LastIsListedLast(all: seq<Combo>, n: nat, k: nat, i: nat)
    requires all == AllCombos(0, n, k) && i < |all| && IsCombo(all[i], 0, n, k) && Exhausted(all[i], n, 0)
    ensures i + 1 == |all|
  {
    AllCombosIncrease(0, n, k);
    hide AllCombos, Lex, Below;
    if i + 1 < |all| {
      assert Below(all[i], all[i + 1]) && all[i + 1] in all;
      AllCombosAreAll(0, n, k, all[i + 1]);
      ExhaustedIsLast(all[i], n, k, all[i + 1]);
    }
  }

  function FirstOf(lo: nat, k: nat): Combo {
    seq(k, j requires 0 <= j < k => lo + j)
  }

  lemma FirstSplits(lo: nat, k: nat)
    requires k > 0
    ensures FirstOf(lo, k) == [lo] + FirstOf(lo + 1, k - 1)
  {
  }

  lemma PrefixedFirst(lo: nat, combos: seq<Combo>, rest: seq<Combo>)
    requires combos != []
    ensures Prefixed(lo, combos) + rest != [] && (Prefixed(lo, combos) + rest)[0] == [lo] + combos[0]
  {
  }

  lemma {:induction false} FirstIsListedFirst(lo: nat, n: nat, k: nat)
    requires lo + k <= n
    ensures AllCombos(lo, n, k) != [] && AllCombos(lo, n, k)[0] == FirstOf(lo, k)
    decreases n - lo
  {
    if k > 0 {
      FirstIsListedFirst(lo + 1, n, k - 1);
      FirstSplits(lo, k);
      PrefixedFirst(lo, AllCombos(lo + 1, n, k - 1), AllCombos(lo + 1, n, k));
      hide Prefixed, FirstOf;
    } else {
      assert FirstOf(lo, 0) == [];
    }
  }

  // ---------------------------------------------------------------- the splits

  /** The groups not in the test set, in order. */
  function Complement(test: Combo, n: nat): Combo {
    if n == 0 then [] else Complement(test, n - 1) + (if n - 1 in test then [] else [n - 1])
  }

  lemma {:induction false} ComplementIsTheRest(test: Combo, n: nat)
    ensures IsCombo(Complement(test, n), 0, n, |Complement(test, n)|)
    ensures forall g: nat :: g in Complement(test, n) <==> g < n && g !in test
  {
    if n > 0 { ComplementIsTheRest(test, n - 1); }
  }

  type Split = (Combo, Combo)

  /** The train set of each split is the complement of its test set, which is the listed combination. */
  ghost predicate SplitsOf(out: seq<Split>, all: seq<Combo>, n: nat) {
    |out| <= |all| && forall i :: 0 <= i < |out| ==> out[i] == (Complement(all[i], n), all[i])
  }

  lemma NoSplits(all: seq<Combo>, n: nat)
    ensures SplitsOf([], all, n)
  {
  }

  lemma OneMoreSplit(out: seq<Split>, all: seq<Combo>, n: nat)
    requires SplitsOf(out, all, n) && |out| < |all|
    ensures SplitsOf(out + [(Complement(all[|out|], n), all[|out|])], all, n)
  {
    hide Complement;
  }

  /** Bump the last value that can still grow and reset those after it; false when there is none. */
  method Advance(idx: array<nat>, n: nat, k: nat) returns (more: bool, ghost pivot: nat)
    requires idx.Length == k <= n && IsCombo(idx[..], 0, n, k)
    modifies idx
    ensures !more ==> idx[..] == old(idx[..]) && Exhausted(idx[..], n, 0)
    ensures more ==>
              && pivot < k && old(idx[..])[pivot] != pivot + n - k && Exhausted(old(idx[..]), n, pivot + 1)
              && idx[..] == Advanced(old(idx[..]), pivot)
  {
    ghost var before := idx[..];
    var i: nat := k;
    while i > 0
      invariant i <= k && idx[..] == before && Exhausted(before, n, i)
    {
      i := i - 1;
      if idx[i] != i + n - k {
        idx[i] := idx[i] + 1;
        for j := i + 1 to k
          invariant forall l :: 0 <= l < i ==> idx[l] == before[l]
          invariant forall l :: i <= l < j ==> idx[l] == before[i] + 1 + (l - i)
        {
          idx[j] := idx[j - 1] + 1;
        }
        assert idx[..] == Advanced(before, i);
        return true, i;
      }
    }
    return false, 0;
  }

  /** Every k-combination of the n groups as a test set, each exactly once, in lexicographic order. */
  method CombinatorialSplits(n: nat, k: nat) returns (out: seq<Split>)
    ensures k == 0 || k > n ==> out == []
    ensures 0 < k <= n ==> SplitsOf(out, AllCombos(0, n, k), n) && |out| == Choose(n, k)
  {
    hide AllCombos, Advanced, IsCombo, Exhausted, Complement, Choose, SplitsOf;
    out := [];
    if k == 0 || k > n {
      return;
    }
    NoSplits(AllCombos(0, n, k), n);
    var idx := new nat[k](j => j);
    ghost var all := AllCombos(0, n, k);
    FirstIsListedFirst(0, n, k);
    AllCombosCount(0, n, k);
    assert idx[..] == all[0];
    var more := true;
    while more
      invariant |out| <= |all| && SplitsOf(out, all, n)
      invariant if more then |out| < |all| && idx[..] == all[|out|] else |out| == |all|
      decreases |all| - |out|, if more then 1 else 0
    {
      var test := idx[..];
      assert test in all;
      AllCombosAreAll(0, n, k, test);
      var train := Complement(test, n);
      OneMoreSplit(out, all, n);
      out := out + [(train, test)];
      ghost var pivot;
      more, pivot := Advance(idx, n, k);
      if more {
        NextIsListedNext(all, n, k, |out| - 1, pivot);
      } else {
        LastIsListedLast(all, n, k, |out| - 1);
      }
    }
  }
}
