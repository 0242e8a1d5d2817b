/** Splitting a list into maximal runs of equal keys and mapping each run. */
module Runs {

  /** Length of the first run: the longest prefix on one key. */
  function RunLength<T>(s: seq<T>, key: T -> int): (n: nat)
    requires s != []
    ensures 1 <= n <= |s|
    ensures forall i :: 0 <= i < n ==> key(s[i]) == key(s[0])
    ensures n < |s| ==> key(s[n]) != key(s[0])
  {
    if |s| == 1 || key(s[1]) != key(s[0]) then 1 else 1 + RunLength(s[1..], key)
  }

  /** The images of the runs, in order. */
  function ByRuns<T, U>(s: seq<T>, key: T -> int, emit: seq<T> -> seq<U>): seq<U> {
    if s == [] then [] else
      var n := RunLength(s, key);
      emit(s[..n]) + ByRuns(s[n..], key, emit)
  }

  lemma {:induction false} RunIs<T>(s: seq<T>, key: T -> int, n: nat)
    requires 1 <= n <= |s| && (forall i :: 0 <= i < n ==> key(s[i]) == key(s[0])) && (n < |s| ==> key(s[n]) != key(s[0]))
    ensures RunLength(s, key) == n
    decreases n
  {
    if n > 1 {
      assert key(s[1]) == key(s[0]);
      RunIs(s[1..], key, n - 1);
    }
  }

  lemma ByRunsStep<T, U>(s: seq<T>, key: T -> int, emit: seq<T> -> seq<U>, n: nat)
    requires s != [] && RunLength(s, key) == n
    ensures ByRuns(s, key, emit) == emit(s[..n]) + ByRuns(s[n..], key, emit)
  {
  }

  lemma Associates<U>(a: seq<U>, b: seq<U>, c: seq<U>)
    ensures a + (b + c) == a + b + c
  {
  }

  lemma NoRuns<T, U>(key: T -> int, emit: seq<T> -> seq<U>)
    ensures ByRuns([], key, emit) == []
  {
  }

  lemma ByRunsUniform<T, U>(s: seq<T>, key: T -> int, emit: seq<T> -> seq<U>)
    requires s != [] && forall i :: 0 <= i < |s| ==> key(s[i]) == key(s[0])
    ensures ByRuns(s, key, emit) == emit(s)
  {
    RunIs(s, key, |s|);
    assert s[..|s|] == s && ByRuns(s[|s|..], key, emit) == [];
  }

  /** Cutting between two runs cuts the image. */
  lemma {:induction false} ByRunsSplit<T, U>(a: seq<T>, b: seq<T>, key: T -> int, emit: seq<T> -> seq<U>)
    requires a == [] || b == [] || key(a[|a| - 1]) != key(b[0])
    ensures ByRuns(a + b, key, emit) == ByRuns(a, key, emit) + ByRuns(b, key, emit)
    decreases |a|
  {
    if a == [] {
      assert a + b == b;
    } else if b == [] {
      assert a + b == a;
    } else {
      var n := RunLength(a, key);
      RunExtends(a, b, key);
      assert (a + b)[..n] == a[..n] && (a + b)[n..] == a[n..] + b;
      assert n < |a| ==> a[n..][|a| - n - 1] == a[|a| - 1];
      ByRunsSplit(a[n..], b, key, emit);
      hide RunLength;
      ByRunsStep(a, key, emit, n);
      ByRunsStep(a + b, key, emit, n);
      hide ByRuns;
      Associates(emit(a[..n]), ByRuns(a[n..], key, emit), ByRuns(b, key, emit));
    }
  }

  lemma RunExtends<T>(a: seq<T>, b: seq<T>, key: T -> int)
    requires a != [] && b != [] && key(a[|a| - 1]) != key(b[0])
    ensures RunLength(a + b, key) == RunLength(a, key)
  {
    var n := RunLength(a, key);
    assert forall i :: 0 <= i < n ==> (a + b)[i] == a[i];
    assert n < |a| ==> (a + b)[n] == a[n];
    RunIs(a + b, key, n);
  }
}
