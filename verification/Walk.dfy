/** The synchronous part of an order: a greedy walk down the opposite side of the book. */
module Walk {
  import opened Basics
  import opened OrderBook

  datatype Take = Take(price: int, size: int)

  datatype Walked = Walked(takes: seq<Take>, left: int)

  function Opposite(side: Side): Side { if side.Bid? then Ask else Bid }

  /** A limit order of this side may trade at this price; a market order always may. */
  predicate Crosses(side: Side, limit: Option<int>, price: int) {
    match limit
    case None => true
    case Some(l) => if side.Bid? then price <= l else price >= l
  }

  /** Levels best first; stop when the size is used up or the price no longer crosses. */
  function Greedy(side: Side, limit: Option<int>, levels: seq<Level>, size: int): Walked {
    if levels == [] || size <= 0 || !Crosses(side, limit, levels[0].price) then Walked([], size)
    else
      var t := Min(size, levels[0].qty);
      var rest := Greedy(side, limit, levels[1..], size - t);
      Walked([Take(levels[0].price, t)] + rest.takes, rest.left)
  }

  function Filled(takes: seq<Take>): int {
    if takes == [] then 0 else takes[0].size + Filled(takes[1..])
  }

  // ---------------------------------------------------------------- how much is filled

  /** The quantity of every crossing level, wherever it stands. */
  function Crossing(side: Side, limit: Option<int>, levels: seq<Level>): int {
    if levels == [] then 0
    else (if Crosses(side, limit, levels[0].price) then levels[0].qty else 0) + Crossing(side, limit, levels[1..])
  }

  lemma {:induction false} NoneCrosses(side: Side, limit: Option<int>, levels: seq<Level>)
    requires Sorted(Opposite(side), levels)
    requires levels != [] ==> !Crosses(side, limit, levels[0].price)
    ensures Crossing(side, limit, levels) == 0
    decreases |levels|
  {
    if levels != [] {
      assert |levels| > 1 ==> Better(Opposite(side), levels[0].price, levels[1].price);
      NoneCrosses(side, limit, levels[1..]);
    }
  }

  lemma {:induction false} CrossingNonNegative(side: Side, limit: Option<int>, levels: seq<Level>)
    requires Positive(levels)
    ensures Crossing(side, limit, levels) >= 0
    decreases |levels|
  {
    if levels != [] { CrossingNonNegative(side, limit, levels[1..]); }
  }

  /** The walk fills exactly the smaller of the size and everything that crosses, although
      it stops at the first level that does not. */
  lemma {:induction false} GreedyIsExact(side: Side, limit: Option<int>, levels: seq<Level>, size: int)
    requires Sorted(Opposite(side), levels) && Positive(levels) && size >= 0
    ensures var r := Greedy(side, limit, levels, size);
      && r.left == size - Min(size, Crossing(side, limit, levels))
      && Filled(r.takes) == size - r.left && 0 <= r.left <= size
    decreases |levels|
  {
    CrossingNonNegative(side, limit, levels);
    if levels == [] || size <= 0 {
    } else if !Crosses(side, limit, levels[0].price) {
      NoneCrosses(side, limit, levels);
    } else {
      CrossingNonNegative(side, limit, levels[1..]);
      var t := Min(size, levels[0].qty);
      var rest := Greedy(side, limit, levels[1..], size - t);
      GreedyIsExact(side, limit, levels[1..], size - t);
      assert ([Take(levels[0].price, t)] + rest.takes)[1..] == rest.takes;
    }
  }

  /** The i-th take is at the i-th level, within its size, positive, and within the limit. */
  lemma {:induction false} TakesAreLevels(side: Side, limit: Option<int>, levels: seq<Level>, size: int, i: nat)
    requires Positive(levels) && i < |Greedy(side, limit, levels, size).takes|
    ensures i < |levels|
    ensures var t := Greedy(side, limit, levels, size).takes[i];
      t.price == levels[i].price && 0 < t.size <= levels[i].qty && Crosses(side, limit, t.price)
    decreases |levels|
  {
    if i > 0 {
      TakesAreLevels(side, limit, levels[1..], size - Min(size, levels[0].qty), i - 1);
    }
  }

  // ---------------------------------------------------------------- at what price

  /** What one unit costs: the price for a buyer, minus the price for a seller. */
  function Weight(side: Side, price: int): int { if side.Bid? then price else -price }

  function Cost(side: Side, takes: seq<Take>): int {
    if takes == [] then 0 else Weight(side, takes[0].price) * takes[0].size + Cost(side, takes[1..])
  }

  /** Any way to take quantity from the levels. */
  ghost predicate Allocation(levels: seq<Level>, a: seq<int>) {
    |a| == |levels| && forall i :: 0 <= i < |a| ==> 0 <= a[i] <= levels[i].qty
  }

  function Total(a: seq<int>): int { if a == [] then 0 else a[0] + Total(a[1..]) }

  function AllocationCost(side: Side, levels: seq<Level>, a: seq<int>): int
    requires |a| == |levels|
  {
    if a == [] then 0 else Weight(side, levels[0].price) * a[0] + AllocationCost(side, levels[1..], a[1..])
  }

  /** Cost of taking a quantity from the top of the book. */
  function TopCost(side: Side, levels: seq<Level>, q: int): int {
    if levels == [] || q <= 0 then 0
    else
      var t := Min(q, levels[0].qty);
      Weight(side, levels[0].price) * t + TopCost(side, levels[1..], q - t)
  }

  lemma {:induction false} GreedyCost(side: Side, limit: Option<int>, levels: seq<Level>, size: int)
    requires Positive(levels)
    ensures var r := Greedy(side, limit, levels, size);
      Cost(side, r.takes) == TopCost(side, levels, Filled(r.takes)) && Filled(r.takes) >= 0
    decreases |levels|
  {
    if levels == [] || size <= 0 || !Crosses(side, limit, levels[0].price) {
    } else {
      var t := Min(size, levels[0].qty);
      var rest := Greedy(side, limit, levels[1..], size - t);
      GreedyCost(side, limit, levels[1..], size - t);
      assert ([Take(levels[0].price, t)] + rest.takes)[1..] == rest.takes;
      if t < levels[0].qty {
        assert size - t <= 0 && rest.takes == [];
      }
    }
  }

  function Depth(levels: seq<Level>): int {
    if levels == [] then 0 else levels[0].qty + Depth(levels[1..])
  }

  lemma {:induction false} DepthNonNegative(levels: seq<Level>)
    requires Positive(levels)
    ensures Depth(levels) >= 0
    decreases |levels|
  {
    if levels != [] { DepthNonNegative(levels[1..]); }
  }

  ghost predicate AtLeast(side: Side, levels: seq<Level>, w: int) {
    forall i :: 0 <= i < |levels| ==> w <= Weight(side, levels[i].price)
  }

  lemma MoreCosts(w: int, w': int, d: int)
    requires w <= w' && d >= 0
    ensures w * d <= w' * d
  {
  }

  lemma Distribute(w: int, a: int, b: int)
    ensures w * (a + b) == w * a + w * b
  {
  }

  /** Each extra unit costs at least as much as the cheapest level. */
  lemma {:induction false} ExtraCosts(side: Side, levels: seq<Level>, q: int, d: int, w: int)
    requires Positive(levels) && AtLeast(side, levels, w) && q >= 0 && d >= 0 && q + d <= Depth(levels)
    ensures TopCost(side, levels, q + d) >= TopCost(side, levels, q) + w * d
    decreases |levels|
  {
    if levels != [] && d > 0 {
      var w0, n := Weight(side, levels[0].price), levels[0].qty;
      var t, t' := Min(q, n), Min(q + d, n);
      var d' := d - (t' - t);
      DepthNonNegative(levels[1..]);
      ExtraCosts(side, levels[1..], q - t, d', w);
      MoreCosts(w, w0, t' - t);
      Distribute(w0, t, t' - t);
      Distribute(w, t' - t, d');
      assert q + d - t' == (q - t) + d';
      assert TopCost(side, levels, q) == w0 * t + TopCost(side, levels[1..], q - t);
    }
  }

  lemma {:induction false} AllocationTotal(levels: seq<Level>, a: seq<int>)
    requires Allocation(levels, a)
    ensures 0 <= Total(a) <= Depth(levels)
    decreases |a|
  {
    if a != [] { AllocationTotal(levels[1..], a[1..]); }
  }

  lemma {:induction false} TopIsCheapest(side: Side, levels: seq<Level>, a: seq<int>)
    requires Sorted(Opposite(side), levels) && Positive(levels) && Allocation(levels, a)
    ensures TopCost(side, levels, Total(a)) <= AllocationCost(side, levels, a)
    decreases |levels|
  {
    if levels != [] {
      var q, a0, rest, tail := Total(a), a[0], levels[1..], a[1..];
      var w0, t := Weight(side, levels[0].price), Min(q, levels[0].qty);
      TopIsCheapest(side, rest, tail);
      AllocationTotal(rest, tail);
      assert a0 <= t;
      assert AtLeast(side, rest, w0);
      ExtraCosts(side, rest, q - t, t - a0, w0);
      assert (q - t) + (t - a0) == Total(tail);
      Distribute(w0, a0, t - a0);
      if q > 0 {
        assert TopCost(side, levels, q) == w0 * t + TopCost(side, rest, q - t);
      } else {
        assert a0 == 0 && t == 0;
      }
    }
  }

  /** No other way of taking the same quantity within the level sizes is cheaper for a buyer
      (or brings a seller more), even using levels beyond the limit. */
  lemma GreedyIsOptimal(side: Side, limit: Option<int>, levels: seq<Level>, size: int, a: seq<int>)
    requires Sorted(Opposite(side), levels) && Positive(levels) && Allocation(levels, a)
    requires Total(a) == Filled(Greedy(side, limit, levels, size).takes)
    ensures Cost(side, Greedy(side, limit, levels, size).takes) <= AllocationCost(side, levels, a)
  {
    GreedyCost(side, limit, levels, size);
    TopIsCheapest(side, levels, a);
  }
}
