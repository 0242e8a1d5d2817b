/** Small shared vocabulary: optional values, the source's integer division, and finite sums. */
module Prelude {

  datatype Option<+T> = None | Some(value: T) {
    function GetOr(default: T): T {
      match this
      case Some(v) => v
      case None => default
    }
  }

  const I64_MAX := 0x7FFF_FFFF_FFFF_FFFF
  const I64_MIN := -0x8000_0000_0000_0000

  function Min(a: int, b: int): int {
    if a <= b then a else b
  }

  function Max(a: int, b: int): int {
    if a >= b then a else b
  }

  function Abs(a: int): nat {
    if a >= 0 then a else -a
  }

  /** Rust's `/` on a positive divisor: truncation toward zero. */
  function TruncDiv(a: int, b: int): int
    requires b > 0
  {
    if a >= 0 then a / b else -((-a) / b)
  }

  lemma TruncDivBounds(a: int, b: int)
    requires b > 0
    ensures a >= 0 ==> TruncDiv(a, b) * b <= a < TruncDiv(a, b) * b + b
    ensures a <= 0 ==> TruncDiv(a, b) * b - b < a <= TruncDiv(a, b) * b
  {
  }

  lemma CancelFactor(x: int, y: int, b: int)
    requires b > 0 && x * b < (y + 1) * b
    ensures x <= y
  {
  }

  lemma MulMonotone(x: int, y: int, b: int)
    requires b >= 0 && x <= y
    ensures x * b <= y * b
  {
  }

  lemma DivMonotone(x: nat, y: nat, b: int)
    requires b > 0 && x <= y
    ensures x / b <= y / b
  {
    var p, q := x / b, y / b;
    assert (q + 1) * b == q * b + b;
    CancelFactor(p, q, b);
  }

  lemma QuotientNonNegative(x: nat, b: int)
    requires b > 0
    ensures x / b >= 0
  {
  }

  /** Truncating division is monotone, and superadditive on non-negative numerators. */
  lemma TruncDivMonotone(a: int, c: int, b: int)
    requires b > 0 && a <= c
    ensures TruncDiv(a, b) <= TruncDiv(c, b)
  {
    if a >= 0 {
      DivMonotone(a, c, b);
    } else if c <= 0 {
      DivMonotone(-c, -a, b);
    } else {
      QuotientNonNegative(-a, b);
      QuotientNonNegative(c, b);
    }
  }

  lemma TruncDivSuperadditive(a: int, c: int, b: int)
    requires b > 0 && a >= 0 && c >= 0
    ensures TruncDiv(a, b) + TruncDiv(c, b) <= TruncDiv(a + c, b)
  {
    var p, q, t := a / b, c / b, (a + c) / b;
    assert (p + q) * b == p * b + q * b;
    assert (t + 1) * b == t * b + b;
    CancelFactor(p + q, t, b);
  }

  /** Sum of f over 0..n. */
  function SumTo(n: nat, f: nat -> int): int {
    if n == 0 then 0 else SumTo(n - 1, f) + f(n - 1)
  }

  lemma {:induction false} SumToCongruent(n: nat, f: nat -> int, g: nat -> int)
    requires forall i: nat :: i < n ==> f(i) == g(i)
    ensures SumTo(n, f) == SumTo(n, g)
  {
    if n > 0 { SumToCongruent(n - 1, f, g); }
  }

  /** Changing one summand changes the sum by that summand's difference. */
  lemma {:induction false} SumToPointChange(n: nat, f: nat -> int, g: nat -> int, k: nat)
    requires k < n
    requires forall i: nat :: i < n && i != k ==> f(i) == g(i)
    ensures SumTo(n, g) == SumTo(n, f) + g(k) - f(k)
  {
    if k == n - 1 {
      SumToCongruent(n - 1, f, g);
    } else {
      SumToPointChange(n - 1, f, g, k);
    }
  }

  lemma {:induction false} SumToAdd(n: nat, f: nat -> int, g: nat -> int, h: nat -> int)
    requires forall i: nat :: i < n ==> h(i) == f(i) + g(i)
    ensures SumTo(n, h) == SumTo(n, f) + SumTo(n, g)
  {
    if n > 0 { SumToAdd(n - 1, f, g, h); }
  }

  lemma {:induction false} SumToZero(n: nat, f: nat -> int)
    requires forall i: nat :: i < n ==> f(i) == 0
    ensures SumTo(n, f) == 0
  {
    if n > 0 { SumToZero(n - 1, f); }
  }

  /** Extending a prefix by one element: the shape every left fold below steps through. */
  lemma PrefixStep<T>(s: seq<T>, i: nat)
    requires i < |s|
    ensures s[..i + 1] == s[..i] + [s[i]]
    ensures s[..i + 1][..i] == s[..i]
  {
  }

  /** Sum of a weight over a sequence; with a 0/1 weight, a count. */
  function Tally<T>(s: seq<T>, w: T -> int): int {
    if s == [] then 0 else Tally(s[..|s| - 1], w) + w(s[|s| - 1])
  }

  lemma TallyPush<T>(s: seq<T>, x: T, w: T -> int)
    ensures Tally(s + [x], w) == Tally(s, w) + w(x)
  {
    assert (s + [x])[..|s|] == s;
  }

  function Listed<T>(x: Option<T>): seq<T> {
    if x.Some? then [x.value] else []
  }

  lemma TallyListed<T>(s: seq<T>, x: Option<T>, w: T -> int)
    ensures Tally(s + Listed(x), w) == Tally(s, w) + (if x.Some? then w(x.value) else 0)
  {
    if x.Some? {
      TallyPush(s, x.value, w);
    } else {
      assert s + Listed(x) == s;
    }
  }

  lemma {:induction false} TallyConcat<T>(s: seq<T>, t: seq<T>, w: T -> int)
    ensures Tally(s + t, w) == Tally(s, w) + Tally(t, w)
  {
    if t == [] {
      assert s + t == s;
    } else {
      assert (s + t)[..|s + t| - 1] == s + t[..|t| - 1];
      TallyConcat(s, t[..|t| - 1], w);
    }
  }

  lemma {:induction false} TallyNonNegative<T>(s: seq<T>, w: T -> int)
    requires forall x :: x in s ==> w(x) >= 0
    ensures Tally(s, w) >= 0
    ensures forall x :: x in s ==> Tally(s, w) >= w(x)
  {
    if s != [] {
      TallyNonNegative(s[..|s| - 1], w);
      assert s == s[..|s| - 1] + [s[|s| - 1]];
    }
  }

  /** The source's `retain(|y| *y != x)`. */
  function Without(s: seq<nat>, x: nat): seq<nat> {
    if s == [] then
      []
    else
      Without(s[..|s| - 1], x) + (if s[|s| - 1] == x then [] else [s[|s| - 1]])
  }

  lemma {:induction false} WithoutElements(s: seq<nat>, x: nat)
    ensures forall y :: y in Without(s, x) <==> y in s && y != x
    ensures Distinct(s) ==> Distinct(Without(s, x))
    ensures x !in s ==> Without(s, x) == s
  {
    if s != [] {
      var init := s[..|s| - 1];
      assert s == init + [s[|s| - 1]];
      WithoutElements(init, x);
      assert Distinct(s) ==> s[|s| - 1] !in init;
    }
  }

  ghost predicate Distinct(s: seq<nat>) {
    forall i, j :: 0 <= i < j < |s| ==> s[i] != s[j]
  }

  /** Summing over a list of distinct indices equals summing over all of 0..n, if f vanishes off the list. */
  lemma {:induction false} TallyOverSupport(n: nat, held: seq<nat>, f: nat -> int)
    requires Distinct(held) && forall i :: i in held ==> i < n
    requires forall i: nat :: i < n && i !in held ==> f(i) == 0
    ensures Tally(held, f) == SumTo(n, f)
  {
    if held == [] {
      SumToZero(n, f);
    } else {
      var init, last := held[..|held| - 1], held[|held| - 1];
      assert held == init + [last];
      assert last in held && forall i :: i in init ==> i in held;
      var g := (i: nat) => if i == last then 0 else f(i);
      TallyPush(init, last, f);
      hide Tally, SumTo;
      TallyCongruent(init, f, g);
      TallyOverSupport(n, init, g);
      SumToPointChange(n, g, f, last);
    }
  }

  lemma {:induction false} TallyCongruent<T>(s: seq<T>, f: T -> int, g: T -> int)
    requires forall x :: x in s ==> f(x) == g(x)
    ensures Tally(s, f) == Tally(s, g)
  {
    if s != [] {
      assert s == s[..|s| - 1] + [s[|s| - 1]];
      TallyCongruent(s[..|s| - 1], f, g);
    }
  }
}
