/**
 * Average-cost position arithmetic. Three components of the source keep a signed net quantity
 * and an average entry price: the venue's shadow, the portfolio's position and the analytics'
 * trade reconstruction. This module is the one specification all three are proved against.
 */
module AverageCost {
  import opened Prelude

  datatype Position = Position(net: int, avg: int)

  const FLAT := Position(0, 0)

  predicate Increases(p: Position, signed: int) {
    p.net == 0 || (p.net > 0) == (signed > 0)
  }

  /** Weighted average of two lots, rounded half away from zero. */
  function AverageEntry(held: nat, avg: int, added: nat, price: int): int
    requires held + added > 0
  {
    var total, lots := held * avg + added * price, held + added;
    if total >= 0 then TruncDiv(total + lots / 2, lots) else TruncDiv(total - lots / 2, lots)
  }

  function NextPosition(p: Position, signed: int, price: int): Position {
    if signed == 0 then
      p
    else if Increases(p, signed) then
      Position(p.net + signed, AverageEntry(Abs(p.net), p.avg, Abs(signed), price))
    else
      var net := p.net + signed;
      Position(net, if net == 0 then 0 else if (net > 0) != (p.net > 0) then price else p.avg)
  }

  /** Realized profit of the part of the position that `signed` closes. */
  function RealizedBy(p: Position, signed: int, price: int): int {
    if signed == 0 || Increases(p, signed) then
      0
    else
      Min(Abs(signed), Abs(p.net)) * (price - p.avg) * (if p.net > 0 then 1 else -1)
  }

  /** What rounding the average adds to the position's cost basis. */
  function RoundingError(p: Position, signed: int, price: int): int {
    if signed != 0 && Increases(p, signed) then
      var q := NextPosition(p, signed, price);
      q.net * q.avg - (p.net * p.avg + signed * price)
    else
      0
  }

  lemma RoundedToNearest(total: int, lots: int)
    requires lots > 0
    ensures var r := if total >= 0 then TruncDiv(total + lots / 2, lots) else TruncDiv(total - lots / 2, lots);
            -lots <= 2 * (r * lots - total) <= lots
  {
    TruncDivBounds(if total >= 0 then total + lots / 2 else total - lots / 2, lots);
  }

  /** The rounded average is the nearest integer to the exact one: off by at most half a unit per lot. */
  lemma AverageEntryNearest(held: nat, avg: int, added: nat, price: int)
    requires held + added > 0
    ensures 2 * Abs((held + added) * AverageEntry(held, avg, added, price) - (held * avg + added * price)) <= held + added
  {
    var total, lots := held * avg + added * price, held + added;
    RoundedToNearest(total, lots);
    assert AverageEntry(held, avg, added, price) * lots == lots * AverageEntry(held, avg, added, price);
  }

  lemma NearestStaysBelow(total: int, lots: int, r: int, bound: int)
    requires lots > 0 && total <= lots * bound
    requires 2 * (r * lots - total) <= lots
    ensures r <= bound
  {
    assert (bound + 1) * lots == lots * bound + lots;
    CancelFactor(r, bound, lots);
  }

  lemma NearestStaysAbove(total: int, lots: int, r: int, bound: int)
    requires lots > 0 && total >= lots * bound
    requires -lots <= 2 * (r * lots - total)
    ensures r >= bound
  {
    assert (r + 1) * lots == r * lots + lots;
    assert bound * lots == lots * bound;
    CancelFactor(bound, r, lots);
  }

  lemma BlendBounds(held: nat, avg: int, added: nat, price: int, lo: int, hi: int)
    requires held > 0 ==> lo <= avg <= hi
    requires lo <= price <= hi
    ensures (held + added) * lo <= held * avg + added * price <= (held + added) * hi
  {
    if held > 0 {
      MulMonotone(lo, avg, held);
      MulMonotone(avg, hi, held);
    }
    MulMonotone(lo, price, added);
    MulMonotone(price, hi, added);
    assert (held + added) * lo == lo * held + lo * added;
    assert (held + added) * hi == hi * held + hi * added;
  }

  /** The average never leaves the interval between the old average and the fill price. */
  lemma AverageEntryBetween(held: nat, avg: int, added: nat, price: int)
    requires held + added > 0
    ensures Min(if held == 0 then price else avg, price) <= AverageEntry(held, avg, added, price)
            <= Max(if held == 0 then price else avg, price)
  {
    var total, lots := held * avg + added * price, held + added;
    var start := if held == 0 then price else avg;
    var lo, hi := Min(start, price), Max(start, price);
    RoundedToNearest(total, lots);
    BlendBounds(held, avg, added, price, lo, hi);
    NearestStaysBelow(total, lots, AverageEntry(held, avg, added, price), hi);
    NearestStaysAbove(total, lots, AverageEntry(held, avg, added, price), lo);
  }

  /** Adding nothing to an open position leaves its average exactly where it was. */
  lemma AverageEntryOfNothing(held: nat, avg: int, price: int)
    requires held > 0
    ensures AverageEntry(held, avg, 0, price) == avg
  {
    RoundedToNearest(held * avg, held);
    NearestStaysBelow(held * avg, held, AverageEntry(held, avg, 0, price), avg);
    NearestStaysAbove(held * avg, held, AverageEntry(held, avg, 0, price), avg);
  }

  /** A position opened from flat carries the price it was opened at. */
  lemma OpenedAtPrice(signed: int, price: int)
    requires signed != 0
    ensures NextPosition(FLAT, signed, price) == Position(signed, price)
  {
    AverageEntryBetween(0, 0, Abs(signed), price);
    hide AverageEntry;
  }

  /**
   * Conservation of a fill: what the position's cost basis gains is what was paid, plus the
   * profit realized, plus the rounding error of the average; the error is at most half a unit
   * per unit of the resulting position and zero unless the fill increases the position.
   */
  lemma CostBasisStep(p: Position, signed: int, price: int)
    ensures var q := NextPosition(p, signed, price);
            && q.net == p.net + signed
            && q.net * q.avg - p.net * p.avg == signed * price + RealizedBy(p, signed, price) + RoundingError(p, signed, price)
            && 2 * Abs(RoundingError(p, signed, price)) <= (if signed != 0 && Increases(p, signed) then Abs(q.net) else 0)
  {
    if signed != 0 && Increases(p, signed) {
      IncreaseRounding(p, signed, price);
    } else if signed != 0 {
      ClosingProfit(p, signed, price);
    }
  }

  lemma IncreaseRounding(p: Position, signed: int, price: int)
    requires signed != 0 && Increases(p, signed)
    ensures 2 * Abs(RoundingError(p, signed, price)) <= Abs(p.net + signed)
  {
    var avg := AverageEntry(Abs(p.net), p.avg, Abs(signed), price);
    AverageEntryNearest(Abs(p.net), p.avg, Abs(signed), price);
    hide AverageEntry;
    if signed > 0 {
      assert (p.net + signed) * avg == (Abs(p.net) + Abs(signed)) * avg;
    } else {
      NegatedProduct(p.net, p.avg);
      NegatedProduct(signed, price);
      NegatedProduct(p.net + signed, avg);
      assert Abs(p.net) + Abs(signed) == -(p.net + signed);
    }
  }

  lemma NegatedProduct(a: int, b: int)
    ensures (-a) * b == -(a * b)
  {
  }

  lemma ClosingProfit(p: Position, signed: int, price: int)
    requires signed != 0 && !Increases(p, signed)
    ensures var q := NextPosition(p, signed, price);
            q.net * q.avg - p.net * p.avg == signed * price + RealizedBy(p, signed, price)
  {
    var net := p.net + signed;
    var dir := if p.net > 0 then 1 else -1;
    if Abs(signed) <= Abs(p.net) {
      assert Abs(signed) * dir == -signed;
      assert Abs(signed) * (price - p.avg) * dir == (Abs(signed) * dir) * (price - p.avg);
      assert -signed * (price - p.avg) == signed * p.avg - signed * price;
      assert net * p.avg == p.net * p.avg + signed * p.avg;
    } else {
      assert Abs(p.net) * dir == p.net;
      assert Abs(p.net) * (price - p.avg) * dir == (Abs(p.net) * dir) * (price - p.avg);
      assert p.net * (price - p.avg) == p.net * price - p.net * p.avg;
      assert net * price == p.net * price + signed * price;
    }
  }
}
