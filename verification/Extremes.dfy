/** Rolling maximum and minimum over a window, kept by a monotonic deque of (index, value) pairs. */
module Extremes {
  import opened Prelude

  /** At least as extreme, upward for the maximum and downward for the minimum. */
  predicate Reaches(up: bool, a: int, b: int) {
    if up then a >= b else a <= b
  }

  /** The extreme of a window: one of its samples, reaching every one of them. */
  ghost predicate IsExtreme(up: bool, window: seq<int>, x: int) {
    x in window && forall y :: y in window ==> Reaches(up, x, y)
  }

  /** The last `window` samples, or all of them while there are fewer. */
  function Recent(samples: seq<int>, window: nat): seq<int> {
    samples[Max(|samples| - window, 0)..]
  }

  type Deque = seq<(nat, int)>

  ghost predicate AnswersAt(up: bool, deque: Deque, samples: seq<int>, j: nat, k: nat)
    requires j < |samples|
  {
    k < |deque| && deque[k].0 >= j && Reaches(up, deque[k].1, samples[j])
  }

  /** A deque entry at or after j reaches sample j. */
  ghost predicate Answers(up: bool, deque: Deque, samples: seq<int>, j: nat)
    requires j < |samples|
  {
    exists k: nat :: AnswersAt(up, deque, samples, j, k)
  }

  /** Entries are samples in index order, each strictly more extreme than the ones after it. */
  ghost predicate Monotonic(up: bool, deque: Deque, samples: seq<int>) {
    && (forall k :: 0 <= k < |deque| ==> deque[k].0 < |samples| && samples[deque[k].0] == deque[k].1)
    && (forall k, l :: 0 <= k < l < |deque| ==> deque[k].0 < deque[l].0 && !Reaches(up, deque[l].1, deque[k].1))
  }

  ghost predicate AnswersFrom(up: bool, deque: Deque, samples: seq<int>, lo: nat) {
    forall j: nat :: lo <= j < |samples| ==> Answers(up, deque, samples, j)
  }

  ghost predicate NoneBefore(deque: Deque, lo: nat) {
    forall k :: 0 <= k < |deque| ==> deque[k].0 >= lo
  }

  /** While the back entries are being dropped for x, whatever is unanswered x will answer. */
  ghost predicate Dropping(up: bool, deque: Deque, samples: seq<int>, lo: nat, x: int) {
    && Monotonic(up, deque, samples) && NoneBefore(deque, lo)
    && forall j: nat :: lo <= j < |samples| ==> Answers(up, deque, samples, j) || Reaches(up, x, samples[j])
  }

  lemma StartDropping(up: bool, deque: Deque, samples: seq<int>, lo: nat, x: int)
    requires Monotonic(up, deque, samples) && NoneBefore(deque, lo) && AnswersFrom(up, deque, samples, lo)
    ensures Dropping(up, deque, samples, lo, x)
  {
  }

  lemma StillAnswered(up: bool, deque: Deque, samples: seq<int>, x: int, j: nat)
    requires j < |samples| && deque != [] && Reaches(up, x, deque[|deque| - 1].1) && Answers(up, deque, samples, j)
    ensures Answers(up, deque[..|deque| - 1], samples, j) || Reaches(up, x, samples[j])
  {
    var init := deque[..|deque| - 1];
    var k: nat :| AnswersAt(up, deque, samples, j, k);
    if k < |init| { assert AnswersAt(up, init, samples, j, k); }
  }

  /** Popping a back entry that x reaches leaves every sample answered, if not by the deque then by x. */
  lemma DropBack(up: bool, deque: Deque, samples: seq<int>, lo: nat, x: int)
    requires Dropping(up, deque, samples, lo, x) && deque != [] && Reaches(up, x, deque[|deque| - 1].1)
    ensures Dropping(up, deque[..|deque| - 1], samples, lo, x)
  {
    hide Answers;
    var init := deque[..|deque| - 1];
    forall j: nat | lo <= j < |samples| ensures Answers(up, init, samples, j) || Reaches(up, x, samples[j]) {
      if Answers(up, deque, samples, j) { StillAnswered(up, deque, samples, x, j); }
    }
  }

  lemma PushBack(up: bool, deque: Deque, samples: seq<int>, lo: nat, x: int)
    requires Dropping(up, deque, samples, lo, x) && (deque != [] ==> !Reaches(up, x, deque[|deque| - 1].1)) && lo <= |samples|
    ensures var more, all := deque + [(|samples|, x)], samples + [x];
            Monotonic(up, more, all) && NoneBefore(more, lo) && AnswersFrom(up, more, all, lo)
  {
    var more, all := deque + [(|samples|, x)], samples + [x];
    forall j: nat | lo <= j < |all| ensures Answers(up, more, all, j) {
      if j < |samples| && Answers(up, deque, samples, j) {
        var k: nat :| AnswersAt(up, deque, samples, j, k);
        assert AnswersAt(up, more, all, j, k);
      } else {
        assert AnswersAt(up, more, all, j, |deque|);
      }
    }
    forall k | 0 <= k < |deque| ensures !Reaches(up, x, more[k].1) {
      assert k < |deque| - 1 ==> !Reaches(up, deque[|deque| - 1].1, deque[k].1);
    }
  }

  /** A front entry that has slid out of the window is not needed by any sample still in it. */
  lemma DropFront(up: bool, deque: Deque, samples: seq<int>, lo: nat)
    requires Monotonic(up, deque, samples) && AnswersFrom(up, deque, samples, lo) && deque != [] && deque[0].0 < lo
    ensures Monotonic(up, deque[1..], samples) && AnswersFrom(up, deque[1..], samples, lo)
  {
    var rest := deque[1..];
    forall j: nat | lo <= j < |samples| ensures Answers(up, rest, samples, j) {
      assert Answers(up, deque, samples, j);
      var k: nat :| AnswersAt(up, deque, samples, j, k);
      assert AnswersAt(up, rest, samples, j, k - 1);
    }
  }

  /** The front of the deque is the extreme of what it answers for. */
  lemma FrontIsExtreme(up: bool, deque: Deque, samples: seq<int>, lo: nat)
    requires Monotonic(up, deque, samples) && AnswersFrom(up, deque, samples, lo) && NoneBefore(deque, lo) && lo < |samples|
    ensures deque != [] && IsExtreme(up, samples[lo..], deque[0].1)
  {
    assert Answers(up, deque, samples, lo);
    var first: nat :| AnswersAt(up, deque, samples, lo, first);
    var window := samples[lo..];
    assert window[deque[0].0 - lo] == deque[0].1;
    forall y | y in window ensures Reaches(up, deque[0].1, y) {
      var j: nat :| j < |window| && window[j] == y;
      assert Answers(up, deque, samples, lo + j);
      var k: nat :| AnswersAt(up, deque, samples, lo + j, k);
      assert k > 0 ==> !Reaches(up, deque[k].1, deque[0].1);
    }
  }

  /** Distinct indices of the window: the deque never outgrows it. */
  lemma {:induction false} DequeFits(deque: Deque, lo: nat, hi: nat)
    requires NoneBefore(deque, lo) && (forall k :: 0 <= k < |deque| ==> deque[k].0 < hi)
    requires forall k, l :: 0 <= k < l < |deque| ==> deque[k].0 < deque[l].0
    ensures deque != [] ==> |deque| <= hi - lo
    decreases |deque|
  {
    if deque != [] {
      var last := |deque| - 1;
      assert deque[last].0 >= lo;
      DequeFits(deque[..last], lo, deque[last].0);
    }
  }

  lemma AnswersLater(up: bool, deque: Deque, samples: seq<int>, lo: nat, hi: nat)
    requires AnswersFrom(up, deque, samples, lo) && lo <= hi
    ensures AnswersFrom(up, deque, samples, hi)
  {
  }

  /** Once the front is in the window so is the rest, and the deque fits the window. */
  lemma NoneSlidOut(up: bool, deque: Deque, samples: seq<int>, lo: nat)
    requires Monotonic(up, deque, samples) && (deque != [] ==> deque[0].0 >= lo)
    ensures NoneBefore(deque, lo) && (deque != [] ==> |deque| <= |samples| - lo)
  {
    forall k | 0 <= k < |deque| ensures deque[k].0 >= lo {
      if k > 0 { assert deque[0].0 < deque[k].0; }
    }
    DequeFits(deque, lo, |samples|);
  }

  // ---------------------------------------------------------------- in place

  class RollingMax {
    const window: nat
    var count: nat
    var deque: Deque
    ghost var samples: seq<int>

    ghost predicate Valid()
      reads this
    {
      && window > 0 && count == |samples| && |deque| <= window
      && Monotonic(true, deque, samples) && NoneBefore(deque, Max(count - window, 0))
      && AnswersFrom(true, deque, samples, Max(count - window, 0))
    }

    constructor (window: nat)
      requires window > 0
      ensures Valid() && samples == [] && this.window == window
    {
      this.window := window;
      count, deque, samples := 0, [], [];
    }

    /** The exact maximum of the last `window` samples, from the `window`-th update on. */
    method Update(input: int) returns (r: Option<int>)
      requires Valid()
      modifies this
      ensures Valid() && samples == old(samples) + [input]
      ensures r.Some? <==> |samples| >= window
      ensures r.Some? ==> IsExtreme(true, Recent(samples, window), r.value)
    {
      var i := count;
      count := count + 1;
      Push(i, input);
      r := Slide(i);
    }

    /** Append the input, which outlives every entry it is at least as large as. */
    method Push(i: nat, input: int)
      requires window > 0 && i == |samples|
      requires Monotonic(true, deque, samples) && NoneBefore(deque, Max(i - window, 0))
      requires AnswersFrom(true, deque, samples, Max(i - window, 0))
      modifies this`deque, this`samples
      ensures samples == old(samples) + [input]
      ensures Monotonic(true, deque, samples) && AnswersFrom(true, deque, samples, Max(i - window, 0))
    {
      hide Monotonic, AnswersFrom, NoneBefore, Dropping;
      ghost var lo := Max(i - window, 0);
      StartDropping(true, deque, samples, lo, input);
      while deque != [] && deque[|deque| - 1].1 <= input
        invariant Dropping(true, deque, samples, lo, input)
        invariant samples == old(samples)
        decreases |deque|
      {
        DropBack(true, deque, samples, lo, input);
        deque := deque[..|deque| - 1];
      }
      PushBack(true, deque, samples, lo, input);
      deque, samples := deque + [(i, input)], samples + [input];
    }

    /** Drop what has slid out of the window and read the front. */
    method Slide(i: nat) returns (r: Option<int>)
      requires window > 0 && count == i + 1 == |samples|
      requires Monotonic(true, deque, samples) && AnswersFrom(true, deque, samples, Max(i - window, 0))
      modifies this`deque
      ensures Valid()
      ensures r.Some? <==> |samples| >= window
      ensures r.Some? ==> IsExtreme(true, Recent(samples, window), r.value)
    {
      hide Monotonic, AnswersFrom, NoneBefore;
      ghost var lo := Max(count - window, 0);
      AnswersLater(true, deque, samples, Max(i - window, 0), lo);
      while deque != [] && deque[0].0 + window <= i
        invariant Monotonic(true, deque, samples) && AnswersFrom(true, deque, samples, lo)
        decreases |deque|
      {
        DropFront(true, deque, samples, lo);
        deque := deque[1..];
      }
      NoneSlidOut(true, deque, samples, lo);
      FrontIsExtreme(true, deque, samples, lo);
      r := if count >= window then Some(deque[0].1) else None;
    }
  }

  class RollingMin {
    const window: nat
    var count: nat
    var deque: Deque
    ghost var samples: seq<int>

    ghost predicate Valid()
      reads this
    {
      && window > 0 && count == |samples| && |deque| <= window
      && Monotonic(false, deque, samples) && NoneBefore(deque, Max(count - window, 0))
      && AnswersFrom(false, deque, samples, Max(count - window, 0))
    }

    constructor (window: nat)
      requires window > 0
      ensures Valid() && samples == [] && this.window == window
    {
      this.window := window;
      count, deque, samples := 0, [], [];
    }

    /** The exact minimum of the last `window` samples, from the `window`-th update on. */
    method Update(input: int) returns (r: Option<int>)
      requires Valid()
      modifies this
      ensures Valid() && samples == old(samples) + [input]
      ensures r.Some? <==> |samples| >= window
      ensures r.Some? ==> IsExtreme(false, Recent(samples, window), r.value)
    {
      var i := count;
      count := count + 1;
      Push(i, input);
      r := Slide(i);
    }

    /** Append the input, which outlives every entry it is at least as small as. */
    method Push(i: nat, input: int)
      requires window > 0 && i == |samples|
      requires Monotonic(false, deque, samples) && NoneBefore(deque, Max(i - window, 0))
      requires AnswersFrom(false, deque, samples, Max(i - window, 0))
      modifies this`deque, this`samples
      ensures samples == old(samples) + [input]
      ensures Monotonic(false, deque, samples) && AnswersFrom(false, deque, samples, Max(i - window, 0))
    {
      hide Monotonic, AnswersFrom, NoneBefore, Dropping;
      ghost var lo := Max(i - window, 0);
      StartDropping(false, deque, samples, lo, input);
      while deque != [] && deque[|deque| - 1].1 >= input
        invariant Dropping(false, deque, samples, lo, input)
        invariant samples == old(samples)
        decreases |deque|
      {
        DropBack(false, deque, samples, lo, input);
        deque := deque[..|deque| - 1];
      }
      PushBack(false, deque, samples, lo, input);
      deque, samples := deque + [(i, input)], samples + [input];
    }

    /** Drop what has slid out of the window and read the front. */
    method Slide(i: nat) returns (r: Option<int>)
      requires window > 0 && count == i + 1 == |samples|
      requires Monotonic(false, deque, samples) && AnswersFrom(false, deque, samples, Max(i - window, 0))
      modifies this`deque
      ensures Valid()
      ensures r.Some? <==> |samples| >= window
      ensures r.Some? ==> IsExtreme(false, Recent(samples, window), r.value)
    {
      hide Monotonic, AnswersFrom, NoneBefore;
      ghost var lo := Max(count - window, 0);
      AnswersLater(false, deque, samples, Max(i - window, 0), lo);
      while deque != [] && deque[0].0 + window <= i
        invariant Monotonic(false, deque, samples) && AnswersFrom(false, deque, samples, lo)
        decreases |deque|
      {
        DropFront(false, deque, samples, lo);
        deque := deque[1..];
      }
      NoneSlidOut(false, deque, samples, lo);
      FrontIsExtreme(false, deque, samples, lo);
      r := if count >= window then Some(deque[0].1) else None;
    }
  }
}
