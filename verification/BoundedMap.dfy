/** One side of the book as a map that never holds more than the depth allows: the reference
    the sorted vector is measured against, without vectors. */
module BoundedMap {
  import opened OrderBook
  import opened Levels

  /** The price everything else is better than. */
  function WorstPrice(side: Side, s: set<int>): (p: int)
    requires s != {}
    ensures p in s && forall q :: q in s && q != p ==> Better(side, q, p)
  {
    BestPrice(if side.Bid? then Ask else Bid, s)
  }

  /** Drop the worst level of a side that is one too deep. */
  function Trimmed(side: Side, m: map<int, int>): map<int, int> {
    if |m| > BOOK_DEPTH then assert m.Keys != {}; m - {WorstPrice(side, m.Keys)} else m
  }

  /** Zero deletes a level, anything else sets it, and the worst goes if there is no room. */
  function MapUpdate(side: Side, m: map<int, int>, price: int, qty: int): map<int, int> {
    Trimmed(side, if qty == 0 then m - {price} else m[price := qty])
  }

  function MapLevels(side: Side, m: map<int, int>, levels: seq<Level>): map<int, int> {
    if levels == [] then m
    else
      var l := levels[|levels| - 1];
      MapUpdate(side, MapLevels(side, m, levels[..|levels| - 1]), l.price, l.qty)
  }

  lemma {:induction false} MapOfSize(ls: seq<Level>)
    requires Distinct(ls)
    ensures |MapOf(ls)| == |ls|
    decreases |ls|
  {
    if ls != [] {
      var pre, l := ls[..|ls| - 1], ls[|ls| - 1];
      MapOfSize(pre);
      NotIn(pre, l.price);
      assert MapOf(ls) == MapOf(pre)[l.price := l.qty];
      assert MapOf(ls).Keys == MapOf(pre).Keys + {l.price};
    }
  }

  lemma SortedIsDistinct(side: Side, ls: seq<Level>)
    requires Sorted(side, ls)
    ensures Distinct(ls)
  {
  }

  /** What is in a map and worse than everything left after its removal is the worst. */
  lemma WorstIsUnique(side: Side, m: map<int, int>, ls: seq<Level>, p: int)
    requires p in m && MapOf(ls) == m - {p} && AllBetter(side, ls, p)
    ensures p == WorstPrice(side, m.Keys)
  {
    var w := WorstPrice(side, m.Keys);
    if w != p {
      assert w in MapOf(ls);
      MapOfKeys(ls, w);
    }
  }

  lemma UpdateCount(m: map<int, int>, price: int, qty: int)
    ensures |ApplyLevel(m, price, qty)| == |m| + (if qty != 0 && price !in m then 1 else if qty == 0 && price in m then -1 else 0)
  {
    if qty == 0 {
      assert (m - {price}).Keys == m.Keys - {price};
    } else {
      assert m[price := qty].Keys == m.Keys + {price};
    }
  }

  /** The depth-bounded vector is the depth-bounded map. */
  lemma AfterDeltaIsMapUpdate(side: Side, ls: seq<Level>, price: int, qty: int)
    requires ValidSide(side, ls) && qty >= 0
    ensures MapOf(AfterDelta(side, ls, price, qty).levels) == MapUpdate(side, MapOf(ls), price, qty)
  {
    var r, m := AfterDelta(side, ls, price, qty), ApplyLevel(MapOf(ls), price, qty);
    AfterDeltaRefinesMap(side, ls, price, qty);
    SortedIsDistinct(side, ls);
    MapOfSize(ls);
    UpdateCount(MapOf(ls), price, qty);
    if r.evicted.Some? { WorstIsUnique(side, m, r.levels, r.evicted.value); }
  }
}
