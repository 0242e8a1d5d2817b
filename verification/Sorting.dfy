/** The stable sort the source's `sort_by_key` performs, for any strict weak order. */
module Sorting {

  /** A strict weak order: the comparison induced by a sort key. */
  ghost predicate KeyOrder<T(!new)>(less: (T, T) -> bool) {
    && (forall x :: !less(x, x))
    && (forall x, y, z :: less(x, y) && less(y, z) ==> less(x, z))
    && (forall x, y, z :: less(x, z) ==> less(x, y) || less(y, z))
  }

  function Insert<T>(x: T, s: seq<T>, less: (T, T) -> bool): seq<T> {
    if s == [] || !less(s[0], x) then [x] + s else [s[0]] + Insert(x, s[1..], less)
  }

  function StableSort<T>(s: seq<T>, less: (T, T) -> bool): seq<T> {
    if s == [] then [] else Insert(s[0], StableSort(s[1..], less), less)
  }

  ghost predicate Sorted<T>(s: seq<T>, less: (T, T) -> bool) {
    forall i, j :: 0 <= i < j < |s| ==> !less(s[j], s[i])
  }

  lemma {:induction false} InsertIsPermutation<T>(x: T, s: seq<T>, less: (T, T) -> bool)
    ensures multiset(Insert(x, s, less)) == multiset(s) + multiset{x}
    ensures |Insert(x, s, less)| == |s| + 1
  {
    if s != [] && less(s[0], x) {
      InsertIsPermutation(x, s[1..], less);
      assert s == [s[0]] + s[1..];
    }
  }

  lemma {:induction false} SortIsPermutation<T>(s: seq<T>, less: (T, T) -> bool)
    ensures multiset(StableSort(s, less)) == multiset(s)
    ensures |StableSort(s, less)| == |s|
  {
    if s != [] {
      SortIsPermutation(s[1..], less);
      InsertIsPermutation(s[0], StableSort(s[1..], less), less);
      assert s == [s[0]] + s[1..];
    }
  }

  lemma {:induction false} InsertKeepsSorted<T(!new)>(x: T, s: seq<T>, less: (T, T) -> bool)
    requires KeyOrder(less) && Sorted(s, less)
    ensures Sorted(Insert(x, s, less), less)
  {
    if s != [] && less(s[0], x) {
      InsertKeepsSorted(x, s[1..], less);
      InsertIsPermutation(x, s[1..], less);
      var t := Insert(x, s[1..], less);
      forall j | 0 <= j < |t| ensures !less(t[j], s[0]) {
        assert t[j] in multiset(t);
        assert t[j] == x || t[j] in s[1..];
      }
    }
  }

  lemma {:induction false} SortSorts<T(!new)>(s: seq<T>, less: (T, T) -> bool)
    requires KeyOrder(less)
    ensures Sorted(StableSort(s, less), less)
  {
    if s != [] {
      SortSorts(s[1..], less);
      InsertKeepsSorted(s[0], StableSort(s[1..], less), less);
    }
  }

  /** Sorting what is sorted changes nothing. */
  lemma {:induction false} SortedIsFixed<T>(s: seq<T>, less: (T, T) -> bool)
    requires Sorted(s, less)
    ensures StableSort(s, less) == s
  {
    if s != [] {
      SortedIsFixed(s[1..], less);
      assert s == [s[0]] + s[1..];
    }
  }

  /** Position by position, the two agree up to ties of the key. */
  ghost predicate Tied<T>(s: seq<T>, t: seq<T>, less: (T, T) -> bool) {
    |s| == |t| && forall i :: 0 <= i < |s| ==> !less(s[i], t[i]) && !less(t[i], s[i])
  }

  /** t with the occurrence of s's last element, at k, replaced by t's own last element. */
  function Exchanged<T>(t: seq<T>, k: nat): seq<T>
    requires k < |t|
  {
    if k == |t| - 1 then t[..|t| - 1] else t[..|t| - 1][k := t[|t| - 1]]
  }

  lemma FindLast<T(!new)>(s: seq<T>, t: seq<T>, less: (T, T) -> bool) returns (k: nat)
    requires KeyOrder(less) && Sorted(s, less) && Sorted(t, less) && multiset(s) == multiset(t) && s != []
    ensures |t| == |s| && k < |t| && t[k] == s[|s| - 1]
    ensures !less(t[k], t[|t| - 1]) && !less(t[|t| - 1], t[k])
    ensures Sorted(Exchanged(t, k), less) && multiset(Exchanged(t, k)) == multiset(s[..|s| - 1])
  {
    assert |s| == |multiset(s)| == |multiset(t)| == |t|;
    var a, b := s[|s| - 1], t[|t| - 1];
    assert s == s[..|s| - 1] + [a];
    assert multiset(s)[a] > 0 && multiset(t)[b] > 0;
    LastIsMaximal(s, b, less);
    LastIsMaximal(t, a, less);
    k :| k < |t| && t[k] == a;
    ReplacedTail(t, k, less);
  }

  /** Two sorted permutations of the same elements are tied. */
  lemma {:induction false} SortedPermutationsTie<T(!new)>(s: seq<T>, t: seq<T>, less: (T, T) -> bool)
    requires KeyOrder(less) && Sorted(s, less) && Sorted(t, less) && multiset(s) == multiset(t)
    ensures Tied(s, t, less)
    decreases |s|
  {
    if s == [] {
      assert |multiset(s)| == |multiset(t)|;
    } else {
      var k := FindLast(s, t, less);
      SortedPermutationsTie(s[..|s| - 1], Exchanged(t, k), less);
      TiesReplaced(s, t, k, less);
    }
  }

  lemma TiesReplaced<T(!new)>(s: seq<T>, t: seq<T>, k: nat, less: (T, T) -> bool)
    requires KeyOrder(less) && s != [] && |t| == |s| && k < |t| && t[k] == s[|s| - 1]
    requires !less(t[k], t[|t| - 1]) && !less(t[|t| - 1], t[k])
    requires Tied(s[..|s| - 1], Exchanged(t, k), less)
    ensures Tied(s, t, less)
  {
    var u := Exchanged(t, k);
    forall i | 0 <= i < |s| ensures !less(s[i], t[i]) && !less(t[i], s[i]) {
      if i < |s| - 1 {
        assert !less(s[..|s| - 1][i], u[i]) && !less(u[i], s[..|s| - 1][i]);
      }
    }
  }

  lemma LastIsMaximal<T(!new)>(s: seq<T>, x: T, less: (T, T) -> bool)
    requires KeyOrder(less) && Sorted(s, less) && s != []
    requires multiset(s)[x] > 0
    ensures !less(s[|s| - 1], x)
  {
  }

  lemma ReplacedTail<T(!new)>(t: seq<T>, k: nat, less: (T, T) -> bool)
    requires KeyOrder(less) && Sorted(t, less) && k < |t| && !less(t[k], t[|t| - 1])
    ensures Sorted(Exchanged(t, k), less) && multiset(Exchanged(t, k)) == multiset(t) - multiset{t[k]}
  {
    var t' := t[..|t| - 1];
    assert t == t' + [t[|t| - 1]];
  }
}
