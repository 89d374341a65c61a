/**
 The size-weighted average price of a list of positions, as the bot computes
 it for the "new average" of a position that was added to.
 */
module WeightedAvg {
  import opened Positions

  /** The sum of the sizes. */
  function TotalSize(ps: seq<Position>): real
  {
    if ps == [] then 0.0 else ps[0].size + TotalSize(ps[1..])
  }

  /** The sum of size times average price. */
  function TotalCost(ps: seq<Position>): real
  {
    if ps == [] then 0.0 else ps[0].size * ps[0].avgPrice + TotalCost(ps[1..])
  }

  /** 0 when the sizes add up to 0; otherwise the average price weighted by size. */
  function CalculateWeightedAvg(ps: seq<Position>): (r: real)
    ensures TotalSize(ps) == 0.0 ==> r == 0.0
    ensures TotalSize(ps) != 0.0 ==> r * TotalSize(ps) == TotalCost(ps)
  {
    if TotalSize(ps) == 0.0 then 0.0 else TotalCost(ps) / TotalSize(ps)
  }

  /** One lot of non-negative size s at price p, added to a total t whose cost c
      is within the bounds, gives a total t2 whose cost c2 is within them too. */
  lemma AddLotBounds(s: real, p: real, t: real, c: real, t2: real, c2: real, lo: real, hi: real)
    requires s >= 0.0 && lo <= p <= hi
    requires t * lo <= c <= t * hi
    requires t2 == s + t && c2 == s * p + c
    ensures t2 * lo <= c2 <= t2 * hi
  {
    assert t2 * lo == s * lo + t * lo;
    assert t2 * hi == s * hi + t * hi;
    assert s * p - s * lo == s * (p - lo);
    assert s * hi - s * p == s * (hi - p);
  }

  /** A quotient r = c / t with t > 0 inherits the bounds of c relative to t. */
  lemma QuotientBounds(t: real, c: real, r: real, lo: real, hi: real)
    requires t > 0.0 && r * t == c
    requires t * lo <= c <= t * hi
    ensures lo <= r <= hi
  {
  }

  /** With non-negative sizes, the cost lies between the total size times any
      lower bound and any upper bound of the prices. */
  lemma {:induction false} CostBounds(ps: seq<Position>, lo: real, hi: real)
    requires forall i :: 0 <= i < |ps| ==> ps[i].size >= 0.0
    requires forall i :: 0 <= i < |ps| ==> lo <= ps[i].avgPrice <= hi
    ensures TotalSize(ps) * lo <= TotalCost(ps) <= TotalSize(ps) * hi
  {
    if ps != [] {
      var rest := ps[1..];
      assert forall i :: 0 <= i < |rest| ==> rest[i] == ps[i + 1];
      CostBounds(rest, lo, hi);
      AddLotBounds(ps[0].size, ps[0].avgPrice, TotalSize(rest), TotalCost(rest),
                   TotalSize(ps), TotalCost(ps), lo, hi);
    }
  }

  /** With non-negative sizes that do not all vanish, the weighted average lies
      within every bound of the prices, in particular between their minimum and maximum. */
  lemma WeightedAvgBounds(ps: seq<Position>, lo: real, hi: real)
    requires forall i :: 0 <= i < |ps| ==> ps[i].size >= 0.0
    requires forall i :: 0 <= i < |ps| ==> lo <= ps[i].avgPrice <= hi
    requires TotalSize(ps) > 0.0
    ensures lo <= CalculateWeightedAvg(ps) <= hi
  {
    var t, c, r := TotalSize(ps), TotalCost(ps), CalculateWeightedAvg(ps);
    CostBounds(ps, lo, hi);
    assert t * lo <= c <= t * hi;
    assert r * t == c;
    QuotientBounds(t, c, r, lo, hi);
  }

  /** When every price is p, the cost is p times the total size. */
  lemma {:induction false} CostUniform(ps: seq<Position>, p: real)
    requires forall i :: 0 <= i < |ps| ==> ps[i].avgPrice == p
    ensures TotalCost(ps) == p * TotalSize(ps)
  {
    if ps != [] {
      CostUniform(ps[1..], p);
    }
  }

  /** When every price is p and the sizes do not add up to 0, the weighted average is p. */
  lemma WeightedAvgUniform(ps: seq<Position>, p: real)
    requires forall i :: 0 <= i < |ps| ==> ps[i].avgPrice == p
    requires TotalSize(ps) != 0.0
    ensures CalculateWeightedAvg(ps) == p
  {
    CostUniform(ps, p);
    var t, r := TotalSize(ps), CalculateWeightedAvg(ps);
    assert r * t == p * t;
    assert (r - p) * t == 0.0;
  }

  /** The average of two open positions, as the bot takes it when a position grows:
      it weights the previous and the current lot by their whole sizes and lies
      between the two average prices. */
  lemma TwoLotAverage(prev: Position, pos: Position)
    requires prev.size > 0.0 && pos.size > 0.0
    ensures CalculateWeightedAvg([prev, pos]) * (prev.size + pos.size)
            == prev.size * prev.avgPrice + pos.size * pos.avgPrice
    ensures prev.avgPrice <= pos.avgPrice ==>
              prev.avgPrice <= CalculateWeightedAvg([prev, pos]) <= pos.avgPrice
    ensures pos.avgPrice <= prev.avgPrice ==>
              pos.avgPrice <= CalculateWeightedAvg([prev, pos]) <= prev.avgPrice
  {
    var ps := [prev, pos];
    assert ps[1..] == [pos];
    assert ps[1..][1..] == [];
    assert TotalSize([pos]) == pos.size;
    assert TotalCost([pos]) == pos.size * pos.avgPrice;
    assert TotalSize(ps) == prev.size + pos.size;
    assert TotalCost(ps) == prev.size * prev.avgPrice + pos.size * pos.avgPrice;
    if prev.avgPrice <= pos.avgPrice {
      WeightedAvgBounds(ps, prev.avgPrice, pos.avgPrice);
    } else {
      WeightedAvgBounds(ps, pos.avgPrice, prev.avgPrice);
    }
  }

  /** Growing 1 unit at 100 to 1.5 units at an average of 110 reports a new average
      of 106: the current lot counts with its whole size of 1.5, not with the 0.5
      that was added. */
  lemma TwoLotExample(prev: Position, pos: Position)
    requires prev.size == 1.0 && prev.avgPrice == 100.0
    requires pos.size == 1.5 && pos.avgPrice == 110.0
    ensures CalculateWeightedAvg([prev, pos]) == 106.0
  {
    TwoLotAverage(prev, pos);
  }
}
