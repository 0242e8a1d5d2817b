/**
 * Decimal strings and fixed-point integers: a truncating parser and a trimming printer. Parsing
 * yields the truncated scaled value exactly when it fits, and undoes printing exactly up to the
 * largest scale a 128-bit power of ten allows.
 */
module Decimal {
  import opened Prelude

  const I64_MAX := 0x7FFF_FFFF_FFFF_FFFF
  const I64_MIN := -0x8000_0000_0000_0000
  const I128_MAX := 0x7FFF_FFFF_FFFF_FFFF_FFFF_FFFF_FFFF_FFFF
  const MAX_SCALE: nat := 38

  predicate FitsI64(x: int) {
    I64_MIN <= x <= I64_MAX
  }

  function Checked(x: nat): Option<nat> {
    if x <= I128_MAX then Some(x) else None
  }

  // ---------------------------------------------------------------- digits

  predicate IsDigit(c: char) {
    '0' <= c <= '9'
  }

  predicate AllDigits(s: string) {
    forall i :: 0 <= i < |s| ==> IsDigit(s[i])
  }

  function DigitValue(c: char): nat {
    if IsDigit(c) then c as int - '0' as int else 0
  }

  function Value(digits: string): nat {
    if digits == [] then 0 else Value(digits[..|digits| - 1]) * 10 + DigitValue(digits[|digits| - 1])
  }

  function DigitOf(d: nat): char
    requires d < 10
  {
    '0' + d as char
  }

  function Digits(n: nat): string {
    if n < 10 then [DigitOf(n)] else Digits(n / 10) + [DigitOf(n % 10)]
  }

  function Pow10(k: nat): (p: nat)
    ensures p > 0
  {
    if k == 0 then 1 else Pow10(k - 1) * 10
  }

  function Zeros(k: nat): string {
    if k == 0 then "" else Zeros(k - 1) + "0"
  }

  // ---------------------------------------------------------------- the parser and the printer

  predicate IsSpace(c: char) {
    var x := c as int;
    9 <= x <= 13 || x == 0x20 || x == 0x85 || x == 0xA0 || x == 0x1680 || 0x2000 <= x <= 0x200A
    || x == 0x2028 || x == 0x2029 || x == 0x202F || x == 0x205F || x == 0x3000
  }

  function TrimStart(s: string): string {
    if s != "" && IsSpace(s[0]) then TrimStart(s[1..]) else s
  }

  function TrimEnd(s: string): string {
    if s != "" && IsSpace(s[|s| - 1]) then TrimEnd(s[..|s| - 1]) else s
  }

  function Trim(s: string): string {
    TrimEnd(TrimStart(s))
  }

  /** The parts before and after the first point; no second part when there is none. */
  function SplitPoint(s: string): (string, string) {
    if s == "" then ("", "")
    else if s[0] == '.' then ("", s[1..])
    else var (a, b) := SplitPoint(s[1..]); ([s[0]] + a, b)
  }

  function Unsigned(s: string): (bool, string) {
    if s != "" && s[0] == '-' then (true, s[1..])
    else if s != "" && s[0] == '+' then (false, s[1..])
    else (false, s)
  }

  function TimesPow(x: Option<nat>, k: nat): Option<nat> {
    if x.Some? && k <= MAX_SCALE then Checked(x.value * Pow10(k)) else None
  }

  /** Scale the parts with every step checked for overflow. */
  function Scaled(intPart: string, kept: string, scale: nat): Option<nat>
    requires |kept| <= scale
  {
    var whole := TimesPow(Checked(Value(intPart)), scale);
    var rest := TimesPow(Checked(Value(kept)), scale - |kept|);
    if whole.Some? && rest.Some? then Checked(whole.value + rest.value) else None
  }

  /** Excess fractional digits are dropped, never rounded. */
  function Kept(frac: string, scale: nat): (kept: string)
    ensures |kept| <= scale
  {
    if |frac| >= scale then frac[..scale] else frac
  }

  function SignedFit(neg: bool, magnitude: Option<nat>): Option<int> {
    match magnitude
    case None => None
    case Some(m) =>
      var raw: int := if neg then -(m as int) else m;
      if FitsI64(raw) then Some(raw) else None
  }

  function PartsToRaw(neg: bool, intPart: string, fracPart: string, scale: nat): Option<int> {
    if intPart == "" && fracPart == "" then
      None
    else if !AllDigits(intPart) || !AllDigits(fracPart) then
      None
    else
      SignedFit(neg, Scaled(intPart, Kept(fracPart, scale), scale))
  }

  function DecimalToRaw(s: string, scale: nat): Option<int> {
    var (neg, body) := Unsigned(Trim(s));
    var (intPart, fracPart) := SplitPoint(body);
    PartsToRaw(neg, intPart, fracPart, scale)
  }

  function TrimZeros(s: string): string {
    if s != "" && s[|s| - 1] == '0' then TrimZeros(s[..|s| - 1]) else s
  }

  /** Pad with zeros on the left to a width. */
  function Padded(s: string, width: nat): string {
    if |s| < width then Zeros(width - |s|) + s else s
  }

  function Quotient(a: nat, b: nat): nat
    requires b > 0
  {
    a / b
  }

  function Whole(mag: nat, scale: nat): nat {
    Quotient(mag, Pow10(scale))
  }

  function Rest(mag: nat, scale: nat): nat {
    mag % Pow10(scale)
  }

  lemma WholeAndRest(mag: nat, scale: nat)
    ensures Rest(mag, scale) < Pow10(scale)
    ensures Whole(mag, scale) * Pow10(scale) + Rest(mag, scale) == mag
  {
    var p := Pow10(scale);
    hide Pow10;
  }

  function Fixed(mag: nat, scale: nat): string {
    if scale == 0 then
      Digits(mag)
    else
      var frac := TrimZeros(Padded(Digits(Rest(mag, scale)), scale));
      if frac == "" then Digits(Whole(mag, scale)) else Digits(Whole(mag, scale)) + "." + frac
  }

  function RawToDecimal(raw: int, scale: nat): string {
    var text := Fixed(Abs(raw), Min(scale, MAX_SCALE));
    if raw < 0 then "-" + text else text
  }

  // ---------------------------------------------------------------- values of digit strings

  lemma {:induction false} PowAdds(a: nat, b: nat)
    ensures Pow10(a + b) == Pow10(a) * Pow10(b)
  {
    if b > 0 {
      PowAdds(a, b - 1);
      TimesTen(Pow10(a), Pow10(b - 1));
    }
  }

  lemma TimesTen(x: int, y: int)
    ensures (x * y) * 10 == x * (y * 10)
  {
  }

  lemma ShiftTerms(x: int, y: int, z: int, w: int, d: int)
    requires w == x * y + z
    ensures w * 10 + d == x * (y * 10) + (z * 10 + d)
  {
  }

  lemma {:induction false} LeadingZeros(a: string, b: string)
    requires Value(a) == 0
    ensures Value(a + b) == Value(b)
  {
    if b == [] {
      assert a + b == a;
    } else {
      assert (a + b)[..|a + b| - 1] == a + b[..|b| - 1];
      LeadingZeros(a, b[..|b| - 1]);
    }
  }

  lemma {:induction false} ValueConcat(a: string, b: string)
    ensures Value(a + b) == Value(a) * Pow10(|b|) + Value(b)
  {
    if b == [] {
      assert a + b == a;
    } else {
      var init := b[..|b| - 1];
      assert (a + b)[..|a + b| - 1] == a + init;
      ValueConcat(a, init);
      ShiftTerms(Value(a), Pow10(|init|), Value(init), Value(a + init), DigitValue(b[|b| - 1]));
    }
  }

  lemma {:induction false} ValueBelowPow(s: string)
    ensures Value(s) < Pow10(|s|)
  {
    if s != [] { ValueBelowPow(s[..|s| - 1]); }
  }

  lemma DigitsOfDigit(d: nat)
    requires d < 10
    ensures IsDigit(DigitOf(d)) && DigitValue(DigitOf(d)) == d
  {
  }

  lemma {:induction false} DigitsAreDigits(n: nat)
    ensures AllDigits(Digits(n)) && Digits(n) != "" && Value(Digits(n)) == n
  {
    if n < 10 {
      DigitsOfDigit(n);
      assert [DigitOf(n)][..0] == [];
    } else {
      DigitsAreDigits(n / 10);
      DigitsOfDigit(n % 10);
      assert Digits(n)[..|Digits(n)| - 1] == Digits(n / 10);
    }
  }

  lemma {:induction false} ZerosAreNothing(k: nat)
    ensures |Zeros(k)| == k && AllDigits(Zeros(k)) && Value(Zeros(k)) == 0
  {
    if k > 0 {
      ZerosAreNothing(k - 1);
      assert Zeros(k)[..k - 1] == Zeros(k - 1);
    }
  }

  /** No number below a power of ten needs more digits than its exponent. */
  lemma {:induction false} DigitsFit(n: nat, k: nat)
    requires n < Pow10(k) && k > 0
    ensures |Digits(n)| <= k
  {
    if n >= 10 {
      assert k > 1;
      DigitsFit(n / 10, k - 1);
    }
  }

  lemma PadString(d: string, width: nat)
    requires AllDigits(d) && |d| <= width
    ensures |Padded(d, width)| == width && AllDigits(Padded(d, width)) && Value(Padded(d, width)) == Value(d)
  {
    hide Value, Zeros;
    ZerosAreNothing(width - |d|);
    LeadingZeros(Zeros(width - |d|), d);
  }

  lemma PaddedKeeps(n: nat, width: nat)
    requires n < Pow10(width) && width > 0
    ensures var s := Padded(Digits(n), width); |s| == width && AllDigits(s) && Value(s) == n
  {
    hide Value, Padded, Digits, Pow10;
    DigitsAreDigits(n);
    DigitsFit(n, width);
    PadString(Digits(n), width);
  }

  lemma {:induction false} TrimZerosKeeps(s: string)
    requires AllDigits(s)
    ensures AllDigits(TrimZeros(s)) && |TrimZeros(s)| <= |s|
    ensures Value(s) == Value(TrimZeros(s)) * Pow10(|s| - |TrimZeros(s)|)
  {
    if s != "" && s[|s| - 1] == '0' {
      var init := s[..|s| - 1];
      TrimZerosKeeps(init);
      TimesTen(Value(TrimZeros(init)), Pow10(|init| - |TrimZeros(init)|));
    }
  }

  // ---------------------------------------------------------------- what well-formed text means

  /** Text in the accepted form, spelled out: sign, whole digits, and fractional digits after a point. */
  datatype Sign = Plain | Plus | Minus

  function SignText(sign: Sign): string {
    match sign
    case Plain => ""
    case Plus => "+"
    case Minus => "-"
  }

  predicate Spells(s: string, sign: Sign, whole: string, point: bool, frac: string) {
    && s == SignText(sign) + whole + (if point then "." + frac else "")
    && AllDigits(whole) && AllDigits(frac) && (whole != "" || frac != "") && (!point ==> frac == "")
  }

  lemma {:induction false} SplitAtPoint(whole: string, point: bool, frac: string)
    requires AllDigits(whole) && (!point ==> frac == "")
    ensures SplitPoint(whole + (if point then "." + frac else "")) == (whole, frac)
  {
    var text := whole + (if point then "." + frac else "");
    if whole == "" {
      assert text == if point then "." + frac else "";
    } else {
      SplitAtPoint(whole[1..], point, frac);
      assert text[1..] == whole[1..] + (if point then "." + frac else "");
      assert [whole[0]] + whole[1..] == whole;
    }
  }

  /** Digits, signs and points are not spaces, so trimming leaves the text alone. */
  lemma TrimLeavesText(s: string)
    requires s != "" && !IsSpace(s[0]) && !IsSpace(s[|s| - 1])
    ensures Trim(s) == s
  {
  }

  lemma SpelledEnds(s: string, sign: Sign, whole: string, point: bool, frac: string)
    requires Spells(s, sign, whole, point, frac)
    ensures Trim(s) == s && Unsigned(s) == (sign.Minus?, whole + (if point then "." + frac else ""))
  {
    var body := whole + (if point then "." + frac else "");
    assert s == SignText(sign) + body;
    assert body[0] == '.' || IsDigit(body[0]);
    assert body[|body| - 1] == '.' || IsDigit(body[|body| - 1]);
    assert s[|s| - 1] == body[|body| - 1];
    assert s[0] == (match sign case Plain => body[0] case Plus => '+' case Minus => '-');
    TrimLeavesText(s);
    if sign.Plain? { assert s == body; } else { assert s[1..] == body; }
  }

  lemma SpelledParses(s: string, sign: Sign, whole: string, point: bool, frac: string, scale: nat)
    requires Spells(s, sign, whole, point, frac)
    ensures DecimalToRaw(s, scale) == SignedFit(sign.Minus?, Scaled(whole, Kept(frac, scale), scale))
  {
    SpelledEnds(s, sign, whole, point, frac);
    SplitAtPoint(whole, point, frac);
    hide Trim, Unsigned, SplitPoint, Scaled, SignedFit, Kept;
  }

  /** The magnitude the text denotes, times ten to the scale, with what does not fit the scale dropped. */
  function Truncated(whole: string, frac: string, scale: nat): nat {
    Quotient(Value(whole + frac) * Pow10(scale), Pow10(|frac|))
  }

  lemma QuotientOf(q: nat, r: nat, d: nat)
    requires d > 0 && r < d
    ensures Quotient(q * d + r, d) == q
  {
    var n := q * d + r;
    var p := n / d;
    assert p * d <= n < p * d + d;
    assert (q + 1) * d == q * d + d && (p + 1) * d == p * d + d;
    CancelFactor(p, q, d);
    CancelFactor(q, p, d);
  }

  /** What the parser computes, without the overflow checks. */
  function Magnitude(whole: string, frac: string, scale: nat): nat {
    var kept := Kept(frac, scale);
    Value(whole) * Pow10(scale) + Value(kept) * Pow10(scale - |kept|)
  }

  lemma FactorOut(m: nat, p: nat, q: nat)
    ensures m * (p * q) == (m * q) * p
  {
  }

  lemma ShortFraction(w: nat, f: nat, p: nat, q: nat, r: nat)
    requires p > 0 && r == p * q
    ensures Quotient((w * p + f) * r, p) == w * r + f * q
  {
    var m := w * p + f;
    FactorOut(m, p, q);
    QuotientOf(m * q, 0, p);
    SpreadFactor(w, p, f, q);
  }

  lemma SpreadFactor(m: nat, q: nat, d: nat, p: nat)
    ensures (m * q + d) * p == m * (p * q) + d * p
  {
    assert (m * q) * p == m * (q * p);
  }

  lemma RemainderFits(d: nat, p: nat, q: nat)
    requires d < q && p > 0
    ensures d * p < p * q
  {
    MulMonotone(d + 1, q, p);
  }

  lemma LongFraction(w: nat, k: nat, d: nat, p: nat, q: nat, r: nat)
    requires q > 0 && p > 0 && d < q && r == p * q
    ensures Quotient(((w * p + k) * q + d) * p, r) == w * p + k
  {
    var m := w * p + k;
    SpreadFactor(m, q, d, p);
    RemainderFits(d, p, q);
    QuotientOf(m, d * p, r);
  }

  /** Dropping the digits beyond the scale is exactly truncating the scaled value. */
  lemma ShortTruncates(whole: string, frac: string, scale: nat)
    requires |frac| <= scale
    ensures Magnitude(whole, frac, scale) == Truncated(whole, frac, scale)
  {
    var f := |frac|;
    ValueConcat(whole, frac);
    assert Kept(frac, scale) == frac;
    PowAdds(f, scale - f);
    hide Value, Pow10, Quotient;
    ShortFraction(Value(whole), Value(frac), Pow10(f), Pow10(scale - f), Pow10(scale));
  }

  lemma LongTruncates(whole: string, frac: string, scale: nat)
    requires |frac| > scale
    ensures Magnitude(whole, frac, scale) == Truncated(whole, frac, scale)
  {
    var f := |frac|;
    var kept, dropped := frac[..scale], frac[scale..];
    assert frac == kept + dropped;
    ValueConcat(whole, frac);
    ValueConcat(kept, dropped);
    ValueBelowPow(dropped);
    PowAdds(scale, f - scale);
    assert Pow10(0) == 1;
    hide Value, Pow10, Quotient;
    LongFraction(Value(whole), Value(kept), Value(dropped), Pow10(scale), Pow10(f - scale), Pow10(f));
    Regroup(Value(whole), Value(kept), Value(dropped), Pow10(scale), Pow10(f - scale), Pow10(f));
  }

  lemma MagnitudeTruncates(whole: string, frac: string, scale: nat)
    ensures Magnitude(whole, frac, scale) == Truncated(whole, frac, scale)
  {
    hide Magnitude, Truncated;
    if |frac| <= scale { ShortTruncates(whole, frac, scale); } else { LongTruncates(whole, frac, scale); }
  }

  lemma Regroup(w: nat, k: nat, d: nat, p: nat, q: nat, r: nat)
    requires r == p * q
    ensures w * r + (k * q + d) == (w * p + k) * q + d
  {
    assert w * (p * q) == (w * p) * q;
  }

  lemma PartsBelowSum(w: nat, p: nat, k: nat, q: nat)
    requires p > 0 && q > 0
    ensures w <= w * p <= w * p + k * q && k <= k * q <= w * p + k * q
  {
    MulMonotone(1, p, w);
    MulMonotone(1, q, k);
  }

  /** The checked arithmetic fails exactly when the scale or the result is out of range. */
  lemma ScaledIsExact(whole: string, frac: string, scale: nat)
    ensures Scaled(whole, Kept(frac, scale), scale)
            == if scale <= MAX_SCALE then Checked(Magnitude(whole, frac, scale)) else None
  {
    var kept := Kept(frac, scale);
    hide Value, Pow10, Kept;
    PartsBelowSum(Value(whole), Pow10(scale), Value(kept), Pow10(scale - |kept|));
  }

  function SignedValue(sign: Sign, m: nat): int {
    if sign.Minus? then -(m as int) else m
  }

  /**
   * Well-formed text parses to its sign times the truncation of its scaled magnitude, exactly when
   * the scale is at most 38 and that value fits 64 bits; surrounding space does not matter.
   */
  lemma ParsingTruncates(s: string, sign: Sign, whole: string, point: bool, frac: string, scale: nat)
    requires Spells(Trim(s), sign, whole, point, frac)
    ensures var v := SignedValue(sign, Truncated(whole, frac, scale));
            DecimalToRaw(s, scale) == if scale <= MAX_SCALE && FitsI64(v) then Some(v) else None
  {
    SpelledEnds(Trim(s), sign, whole, point, frac);
    SpelledParses(Trim(s), sign, whole, point, frac, scale);
    MagnitudeTruncates(whole, frac, scale);
    ScaledIsExact(whole, frac, scale);
    hide Trim, Truncated, Magnitude, Scaled, Kept;
    assert DecimalToRaw(s, scale) == DecimalToRaw(Trim(s), scale);
  }

  lemma {:induction false} Rejoined(s: string)
    ensures var (a, b) := SplitPoint(s); s == a + (if '.' in s then "." + b else "") && ('.' !in s ==> b == "")
  {
    if s != "" && s[0] != '.' {
      Rejoined(s[1..]);
      assert s == [s[0]] + s[1..];
    } else if s != "" {
      assert s == "." + s[1..];
    }
  }

  /** And nothing else parses: what does is a sign, digits, and digits after a point. */
  lemma ParsedIsSpelled(s: string, scale: nat) returns (sign: Sign, whole: string, point: bool, frac: string)
    requires DecimalToRaw(s, scale).Some?
    ensures Spells(Trim(s), sign, whole, point, frac)
  {
    var t := Trim(s);
    hide Trim, Scaled, SplitPoint, SignedFit, Kept;
    var neg, body := Unsigned(t).0, Unsigned(t).1;
    sign := if neg then Minus else if t != "" && t[0] == '+' then Plus else Plain;
    UnsignedRejoins(t, sign);
    whole, frac := SplitPoint(body).0, SplitPoint(body).1;
    point := '.' in body;
    Rejoined(body);
    Reassociate(SignText(sign), whole, if point then "." + frac else "");
  }

  lemma Reassociate(a: string, b: string, c: string)
    ensures a + (b + c) == a + b + c
  {
  }

  lemma UnsignedRejoins(t: string, sign: Sign)
    requires sign == if Unsigned(t).0 then Minus else if t != "" && t[0] == '+' then Plus else Plain
    ensures t == SignText(sign) + Unsigned(t).1
  {
    if t != "" { assert t == [t[0]] + t[1..]; }
  }

  // ---------------------------------------------------------------- the round trip

  /** What is printed spells the number: whole digits, then a trimmed fraction within the scale. */
  lemma FixedSpells(mag: nat, scale: nat) returns (point: bool, frac: string)
    ensures Spells(Fixed(mag, scale), Plain, Digits(Whole(mag, scale)), point, frac)
    ensures |frac| <= scale && Value(frac) * Pow10(scale - |frac|) == Rest(mag, scale)
  {
    hide Padded, TrimZeros, Digits, Whole, Rest, Value, Pow10;
    DigitsAreDigits(Whole(mag, scale));
    WholeAndRest(mag, scale);
    if scale == 0 {
      point, frac := false, "";
      WholeOfUnit(mag);
    } else {
      var padded := Padded(Digits(Rest(mag, scale)), scale);
      PaddedKeeps(Rest(mag, scale), scale);
      TrimZerosKeeps(padded);
      frac := TrimZeros(padded);
      point := frac != "";
    }
    Plainly(Digits(Whole(mag, scale)), if point then "." + frac else "");
  }

  lemma Plainly(a: string, b: string)
    ensures "" + a + b == a + b && a + "" == a
  {
  }

  lemma WholeOfUnit(mag: nat)
    ensures Whole(mag, 0) == mag && Rest(mag, 0) == 0 && Value("") * Pow10(0) == 0
  {
  }

  lemma SpellsSigned(s: string, neg: bool, whole: string, point: bool, frac: string)
    requires Spells(s, Plain, whole, point, frac)
    ensures Spells(if neg then "-" + s else s, if neg then Minus else Plain, whole, point, frac)
  {
    Plainly(whole, if point then "." + frac else "");
    Reassociate("-", whole, if point then "." + frac else "");
  }

  lemma PrintedMagnitude(mag: nat, scale: nat, frac: string)
    requires |frac| <= scale && Value(frac) * Pow10(scale - |frac|) == Rest(mag, scale)
    ensures Truncated(Digits(Whole(mag, scale)), frac, scale) == mag
  {
    hide Digits, Whole, Rest, Value, Pow10, Truncated;
    MagnitudeTruncates(Digits(Whole(mag, scale)), frac, scale);
    DigitsAreDigits(Whole(mag, scale));
    WholeAndRest(mag, scale);
    KeptWhole(frac, scale);
  }

  /** Printing then parsing at the same scale gives the number back, exactly when the scale is at most 38. */
  lemma RoundTrip(raw: int, scale: nat)
    requires FitsI64(raw)
    ensures DecimalToRaw(RawToDecimal(raw, scale), scale) == if scale <= MAX_SCALE then Some(raw) else None
  {
    hide Digits, Whole, Rest, Value, Pow10, Truncated, Fixed, Trim, Spells, DecimalToRaw, Unsigned, FitsI64;
    var kept := Min(scale, MAX_SCALE);
    var mag: nat := Abs(raw);
    var point, frac := FixedSpells(mag, kept);
    var whole := Digits(Whole(mag, kept));
    SpellsSigned(Fixed(mag, kept), raw < 0, whole, point, frac);
    var text, sign := RawToDecimal(raw, scale), if raw < 0 then Minus else Plain;
    SpelledEnds(text, sign, whole, point, frac);
    ParsingTruncates(text, sign, whole, point, frac, scale);
    PrintedMagnitude(mag, kept, frac);
  }

  lemma KeptWhole(frac: string, scale: nat)
    requires |frac| <= scale
    ensures Kept(frac, scale) == frac
  {
  }
}
