/** One side of the engine's order book: a depth-bounded vector of price levels,
    sorted best first, and its meaning as an unbounded price-to-size map. */
module OrderBook {

  datatype Side = Bid | Ask

  datatype Option<+T> = None | Some(value: T)

  datatype Level = Level(price: int, qty: int)

  const BOOK_DEPTH: nat := 100

  predicate Better(side: Side, a: int, b: int) {
    if side.Bid? then a > b else a < b
  }

  ghost predicate Sorted(side: Side, ls: seq<Level>) {
    forall i, j :: 0 <= i < j < |ls| ==> Better(side, ls[i].price, ls[j].price)
  }

  ghost predicate Positive(ls: seq<Level>) {
    forall i :: 0 <= i < |ls| ==> ls[i].qty > 0
  }

  ghost predicate ValidSide(side: Side, ls: seq<Level>) {
    Sorted(side, ls) && Positive(ls) && |ls| <= BOOK_DEPTH
  }

  /** The map a consumer builds by storing the levels one after the other. */
  function MapOf(ls: seq<Level>): map<int, int> {
    if ls == [] then map[]
    else MapOf(ls[..|ls| - 1])[ls[|ls| - 1].price := ls[|ls| - 1].qty]
  }

  /** The effect of one delta on an unbounded map: size zero deletes the level. */
  function ApplyLevel(m: map<int, int>, price: int, qty: int): map<int, int> {
    if qty == 0 then m - {price} else m[price := qty]
  }

  ghost predicate Distinct(ls: seq<Level>) {
    forall i, j :: 0 <= i < j < |ls| ==> ls[i].price != ls[j].price
  }

  lemma {:induction false} MapOfKeys(ls: seq<Level>, p: int)
    ensures p in MapOf(ls) <==> exists i :: 0 <= i < |ls| && ls[i].price == p
  {
    if ls != [] {
      var pre := ls[..|ls| - 1];
      MapOfKeys(pre, p);
      if i :| 0 <= i < |pre| && pre[i].price == p {
        assert ls[i].price == p;
      }
      if i :| 0 <= i < |ls| && ls[i].price == p {
        assert i == |ls| - 1 || pre[i].price == p;
      }
    }
  }

  lemma {:induction false} MapOfAt(ls: seq<Level>, i: nat)
    requires Distinct(ls) && i < |ls|
    ensures ls[i].price in MapOf(ls) && MapOf(ls)[ls[i].price] == ls[i].qty
  {
    if i < |ls| - 1 {
      MapOfAt(ls[..|ls| - 1], i);
    }
  }

  /** Every entry of the map is some level, and every level is an entry. */
  lemma MapOfMeaning(ls: seq<Level>)
    requires Distinct(ls)
    ensures forall i :: 0 <= i < |ls| ==> ls[i].price in MapOf(ls) && MapOf(ls)[ls[i].price] == ls[i].qty
    ensures forall p :: p in MapOf(ls) ==> exists i :: 0 <= i < |ls| && ls[i].price == p && ls[i].qty == MapOf(ls)[p]
  {
    forall i | 0 <= i < |ls|
      ensures ls[i].price in MapOf(ls) && MapOf(ls)[ls[i].price] == ls[i].qty
    {
      MapOfAt(ls, i);
    }
    forall p | p in MapOf(ls)
      ensures exists i :: 0 <= i < |ls| && ls[i].price == p && ls[i].qty == MapOf(ls)[p]
    {
      MapOfKeys(ls, p);
    }
  }

  /** What lower_bound finds: how many levels are strictly better than the price. */
  function Rank(side: Side, ls: seq<Level>, price: int): (k: nat)
    ensures k <= |ls|
  {
    if ls == [] || !Better(side, ls[0].price, price) then 0
    else 1 + Rank(side, ls[1..], price)
  }

  lemma {:induction false} RankMeaning(side: Side, ls: seq<Level>, price: int)
    ensures var k := Rank(side, ls, price);
      && (forall i :: 0 <= i < k ==> Better(side, ls[i].price, price))
      && (k < |ls| ==> !Better(side, ls[k].price, price))
  {
    if ls != [] && Better(side, ls[0].price, price) {
      RankMeaning(side, ls[1..], price);
      assert forall i :: 1 <= i < |ls| ==> ls[i] == ls[1..][i - 1];
    }
  }

  lemma {:induction false} RankUnique(side: Side, ls: seq<Level>, price: int, k: nat)
    requires k <= |ls|
    requires forall i :: 0 <= i < k ==> Better(side, ls[i].price, price)
    requires k < |ls| ==> !Better(side, ls[k].price, price)
    ensures k == Rank(side, ls, price)
  {
    if k > 0 {
      RankUnique(side, ls[1..], price, k - 1);
    }
  }

  function SizeAt(side: Side, ls: seq<Level>, price: int): int {
    var k := Rank(side, ls, price);
    if k < |ls| && ls[k].price == price then ls[k].qty else 0
  }

  function MapSize(m: map<int, int>, price: int): int {
    if price in m then m[price] else 0
  }

  /** Looking a price up in the sorted vector is looking it up in the map. */
  lemma SizeAtIsMapLookup(side: Side, ls: seq<Level>, price: int)
    requires Sorted(side, ls)
    ensures SizeAt(side, ls, price) == MapSize(MapOf(ls), price)
  {
    MapOfMeaning(ls);
    RankMeaning(side, ls, price);
    var k := Rank(side, ls, price);
    if price in MapOf(ls) {
      var i :| 0 <= i < |ls| && ls[i].price == price && ls[i].qty == MapOf(ls)[price];
      assert i == k;
    }
  }

  datatype Applied = Applied(levels: seq<Level>, evicted: Option<int>)

  predicate FoundAt(ls: seq<Level>, k: nat, price: int) {
    k < |ls| && ls[k].price == price
  }

  /** The levels strictly worse than the price. */
  function Worse(side: Side, ls: seq<Level>, price: int): seq<Level> {
    var k := Rank(side, ls, price);
    if FoundAt(ls, k, price) then ls[k + 1..] else ls[k..]
  }

  /** The vector after a delta, before the depth bound is enforced. */
  function Placed(side: Side, ls: seq<Level>, price: int, qty: int): seq<Level> {
    ls[..Rank(side, ls, price)]
    + (if qty == 0 then [] else [Level(price, qty)])
    + Worse(side, ls, price)
  }

  /** The same steps as branches on whether the level exists and whether the size is zero. */
  lemma PlacedCases(side: Side, ls: seq<Level>, price: int, qty: int)
    ensures var k := Rank(side, ls, price);
      Placed(side, ls, price, qty) ==
      if qty == 0 then if FoundAt(ls, k, price) then ls[..k] + ls[k + 1..] else ls
      else if FoundAt(ls, k, price) then ls[k := Level(price, qty)]
      else ls[..k] + [Level(price, qty)] + ls[k..]
  {
    var k := Rank(side, ls, price);
    if FoundAt(ls, k, price) {
      assert ls[k := Level(price, qty)] == ls[..k] + [Level(price, qty)] + ls[k + 1..];
      assert ls[..k] + [] == ls[..k];
    } else {
      assert ls == ls[..k] + [] + ls[k..];
    }
  }

  /** Enforce the depth bound on a vector that has grown by at most one level. */
  function Bounded(ls: seq<Level>): Applied {
    if |ls| > BOOK_DEPTH
    then Applied(ls[..BOOK_DEPTH], Some(ls[|ls| - 1].price))
    else Applied(ls, None)
  }

  function AfterDelta(side: Side, ls: seq<Level>, price: int, qty: int): Applied {
    Bounded(Placed(side, ls, price, qty))
  }

  lemma {:induction false} MapOfConcat(a: seq<Level>, b: seq<Level>)
    ensures MapOf(a + b) == MapOf(a) + MapOf(b)
    decreases |b|
  {
    if b == [] {
      assert a + b == a;
    } else {
      var b' := b[..|b| - 1];
      MapOfConcat(a, b');
      assert (a + b)[..|a + b| - 1] == a + b';
    }
  }

  ghost predicate AllBetter(side: Side, ls: seq<Level>, price: int) {
    forall i :: 0 <= i < |ls| ==> Better(side, ls[i].price, price)
  }

  ghost predicate AllWorse(side: Side, ls: seq<Level>, price: int) {
    forall i :: 0 <= i < |ls| ==> Better(side, price, ls[i].price)
  }

  lemma WorseSide(side: Side, ls: seq<Level>, price: int)
    requires Sorted(side, ls)
    ensures AllWorse(side, Worse(side, ls, price), price) && Sorted(side, Worse(side, ls, price))
  {
    RankMeaning(side, ls, price);
    var k, w := Rank(side, ls, price), Worse(side, ls, price);
    forall i | 0 <= i < |w|
      ensures Better(side, price, w[i].price)
    {
      var j := if FoundAt(ls, k, price) then k + 1 + i else k + i;
      assert w[i] == ls[j];
      assert j > k ==> Better(side, ls[k].price, ls[j].price);
    }
  }

  lemma BetterSide(side: Side, ls: seq<Level>, price: int)
    requires Sorted(side, ls)
    ensures AllBetter(side, ls[..Rank(side, ls, price)], price) && Sorted(side, ls[..Rank(side, ls, price)])
  {
    RankMeaning(side, ls, price);
  }

  lemma SplitAround(side: Side, ls: seq<Level>, price: int)
    ensures var k := Rank(side, ls, price);
      ls == ls[..k] + (if FoundAt(ls, k, price) then [ls[k]] else []) + Worse(side, ls, price)
  {
    var k := Rank(side, ls, price);
    if FoundAt(ls, k, price) { SplitOut(ls, k); } else { SplitAt(ls, k); }
  }

  lemma SplitOut(ls: seq<Level>, k: nat)
    requires k < |ls|
    ensures ls == ls[..k] + [ls[k]] + ls[k + 1..]
  {
  }

  lemma SplitAt(ls: seq<Level>, k: nat)
    requires k <= |ls|
    ensures ls == ls[..k] + [] + ls[k..]
  {
  }

  /** A sorted side around a price: what is better, the level itself, what is worse. */
  lemma Around(side: Side, ls: seq<Level>, price: int)
    requires Sorted(side, ls)
    ensures var k := Rank(side, ls, price);
      && ls == ls[..k] + (if FoundAt(ls, k, price) then [ls[k]] else []) + Worse(side, ls, price)
      && AllBetter(side, ls[..k], price) && AllWorse(side, Worse(side, ls, price), price)
      && Sorted(side, ls[..k]) && Sorted(side, Worse(side, ls, price))
  {
    BetterSide(side, ls, price);
    WorseSide(side, ls, price);
    SplitAround(side, ls, price);
  }

  lemma SortedAround(side: Side, a: seq<Level>, mid: seq<Level>, c: seq<Level>, price: int)
    requires Sorted(side, a) && Sorted(side, c) && AllBetter(side, a, price) && AllWorse(side, c, price)
    requires mid == [] || (|mid| == 1 && mid[0].price == price)
    ensures Sorted(side, a + mid + c)
  {
  }

  lemma PlacedSorted(side: Side, ls: seq<Level>, price: int, qty: int)
    requires Sorted(side, ls) && Positive(ls) && qty >= 0
    ensures Sorted(side, Placed(side, ls, price, qty)) && Positive(Placed(side, ls, price, qty))
  {
    PlacedPositive(side, ls, price, qty);
    Around(side, ls, price);
    var mid := if qty == 0 then [] else [Level(price, qty)];
    SortedAround(side, ls[..Rank(side, ls, price)], mid, Worse(side, ls, price), price);
  }

  lemma PlacedPositive(side: Side, ls: seq<Level>, price: int, qty: int)
    requires Positive(ls) && qty >= 0
    ensures Positive(Placed(side, ls, price, qty))
  {
  }

  lemma NotIn(ls: seq<Level>, price: int)
    requires forall i :: 0 <= i < |ls| ==> ls[i].price != price
    ensures price !in MapOf(ls)
  {
    MapOfKeys(ls, price);
  }

  lemma MapOfMiddle(ls: seq<Level>)
    requires |ls| <= 1
    ensures MapOf(ls) == if ls == [] then map[] else map[ls[0].price := ls[0].qty]
  {
    assert ls != [] ==> ls[..0] == [];
  }

  lemma MergeMiddle(a: map<int, int>, was: map<int, int>, mid: map<int, int>, c: map<int, int>, price: int, qty: int)
    requires price !in a && price !in c
    requires was == map[] || was.Keys == {price}
    requires mid == if qty == 0 then map[] else map[price := qty]
    ensures a + mid + c == ApplyLevel(a + was + c, price, qty)
    ensures price in a + was + c <==> was != map[]
  {
  }

  lemma MapOfThree(a: seq<Level>, b: seq<Level>, c: seq<Level>)
    ensures MapOf(a + b + c) == MapOf(a) + MapOf(b) + MapOf(c)
  {
    MapOfConcat(a + b, c);
    MapOfConcat(a, b);
  }

  lemma NotAround(side: Side, ls: seq<Level>, price: int)
    requires Sorted(side, ls)
    ensures price !in MapOf(ls[..Rank(side, ls, price)]) && price !in MapOf(Worse(side, ls, price))
  {
    BetterSide(side, ls, price);
    WorseSide(side, ls, price);
    NotIn(ls[..Rank(side, ls, price)], price);
    NotIn(Worse(side, ls, price), price);
  }

  /** Replacing the middle of three pieces is a level update on the map. */
  lemma MiddleRefinesMap(a: seq<Level>, was: seq<Level>, c: seq<Level>, price: int, qty: int)
    requires price !in MapOf(a) && price !in MapOf(c)
    requires |was| <= 1 && (was != [] ==> was[0].price == price)
    ensures MapOf(a + (if qty == 0 then [] else [Level(price, qty)]) + c) == ApplyLevel(MapOf(a + was + c), price, qty)
    ensures price in MapOf(a + was + c) <==> was != []
  {
    var mid := if qty == 0 then [] else [Level(price, qty)];
    MapOfThree(a, was, c);
    MapOfThree(a, mid, c);
    MapOfMiddle(was);
    MapOfMiddle(mid);
    MergeMiddle(MapOf(a), MapOf(was), MapOf(mid), MapOf(c), price, qty);
  }

  lemma PlacedRefinesMap(side: Side, ls: seq<Level>, price: int, qty: int)
    requires Sorted(side, ls)
    ensures MapOf(Placed(side, ls, price, qty)) == ApplyLevel(MapOf(ls), price, qty)
    ensures price in MapOf(ls) <==> FoundAt(ls, Rank(side, ls, price), price)
  {
    var k := Rank(side, ls, price);
    NotAround(side, ls, price);
    SplitAround(side, ls, price);
    MiddleRefinesMap(ls[..k], if FoundAt(ls, k, price) then [ls[k]] else [], Worse(side, ls, price), price, qty);
  }

  lemma DropLastRefinesMap(ls: seq<Level>)
    requires Distinct(ls) && ls != []
    ensures MapOf(ls[..|ls| - 1]) == ApplyLevel(MapOf(ls), ls[|ls| - 1].price, 0)
  {
    NotIn(ls[..|ls| - 1], ls[|ls| - 1].price);
  }

  lemma PlacedLength(side: Side, ls: seq<Level>, price: int, qty: int)
    ensures |Placed(side, ls, price, qty)| == |ls| + (if qty == 0 then 0 else 1)
      - (if FoundAt(ls, Rank(side, ls, price), price) then 1 else 0)
  {
  }

  function WithEviction(m: map<int, int>, evicted: Option<int>): map<int, int> {
    match evicted
    case None => m
    case Some(p) => ApplyLevel(m, p, 0)
  }

  lemma BoundedRefinesMap(side: Side, ls: seq<Level>)
    requires Sorted(side, ls) && Positive(ls) && |ls| <= BOOK_DEPTH + 1
    ensures var r := Bounded(ls);
      && ValidSide(side, r.levels)
      && MapOf(r.levels) == WithEviction(MapOf(ls), r.evicted)
      && (r.evicted.Some? <==> |ls| > BOOK_DEPTH)
      && (r.evicted.Some? ==> r.evicted.value in MapOf(ls) && AllBetter(side, r.levels, r.evicted.value))
  {
    if |ls| > BOOK_DEPTH {
      DropLastRefinesMap(ls);
    }
  }

  /** What an unbounded map sees of one engine update: the delta itself, then the
      deletion of the level the depth bound evicted, if there was one. */
  function ApplyWithEviction(m: map<int, int>, price: int, qty: int, evicted: Option<int>): map<int, int> {
    WithEviction(ApplyLevel(m, price, qty), evicted)
  }

  /** The depth-bounded vector refines the unbounded map, evictions included, and an
      eviction removes the worst of the 101 levels (possibly the one just inserted). */
  lemma AfterDeltaRefinesMap(side: Side, ls: seq<Level>, price: int, qty: int)
    requires ValidSide(side, ls) && qty >= 0
    ensures var r := AfterDelta(side, ls, price, qty);
      && ValidSide(side, r.levels)
      && MapOf(r.levels) == ApplyWithEviction(MapOf(ls), price, qty, r.evicted)
      && (r.evicted.Some? <==> qty != 0 && |ls| == BOOK_DEPTH && price !in MapOf(ls))
      && (r.evicted.Some? ==> r.evicted.value in ApplyLevel(MapOf(ls), price, qty))
      && (r.evicted.Some? ==> AllBetter(side, r.levels, r.evicted.value))
  {
    var ls' := Placed(side, ls, price, qty);
    PlacedSorted(side, ls, price, qty);
    PlacedRefinesMap(side, ls, price, qty);
    PlacedLength(side, ls, price, qty);
    BoundedRefinesMap(side, ls');
  }

  lemma {:induction false} HeadPrice(side: Side, a: seq<Level>, b: seq<Level>)
    requires Sorted(side, a) && Sorted(side, b) && MapOf(a) == MapOf(b) && a != []
    ensures b != [] && a[0] == b[0]
  {
    MapOfMeaning(a);
    MapOfMeaning(b);
    assert a[0].price in MapOf(b);
    var i :| 0 <= i < |b| && b[i].price == a[0].price && b[i].qty == MapOf(b)[a[0].price];
    assert b[0].price in MapOf(a);
    var j :| 0 <= j < |a| && a[j].price == b[0].price && a[j].qty == MapOf(a)[b[0].price];
    assert i == 0 || Better(side, b[0].price, b[i].price);
    assert j == 0 || Better(side, a[0].price, a[j].price);
  }

  lemma MapOfTail(side: Side, a: seq<Level>)
    requires Sorted(side, a) && a != []
    ensures Sorted(side, a[1..]) && MapOf(a[1..]) == MapOf(a) - {a[0].price}
  {
    assert a == [a[0]] + a[1..];
    MapOfConcat([a[0]], a[1..]);
    MapOfMiddle([a[0]]);
    NotIn(a[1..], a[0].price);
  }

  /** A sorted side is determined by the map it stands for. */
  lemma {:induction false} SortedSideIsCanonical(side: Side, a: seq<Level>, b: seq<Level>)
    requires Sorted(side, a) && Sorted(side, b) && MapOf(a) == MapOf(b)
    ensures a == b
    decreases |a|
  {
    if a == [] {
      if b != [] { HeadPrice(side, b, a); }
    } else {
      HeadPrice(side, a, b);
      MapOfTail(side, a);
      MapOfTail(side, b);
      SortedSideIsCanonical(side, a[1..], b[1..]);
      assert a == [a[0]] + a[1..] && b == [b[0]] + b[1..];
    }
  }

  // ---------------------------------------------------------------- the class

  class OrderBookSide {
    const side: Side
    var levels: seq<Level>

    ghost predicate Valid() reads this { ValidSide(side, levels) }

    constructor (side: Side)
      ensures this.side == side && levels == [] && Valid()
    {
      this.side := side;
      levels := [];
    }

    /** Binary search for the first level that is not better than the price. */
    method LowerBound(price: int) returns (k: nat)
      requires Valid()
      ensures k == Rank(side, levels, price)
    {
      var lo, hi := 0, |levels|;
      while lo < hi
        invariant 0 <= lo <= hi <= |levels|
        invariant forall i :: 0 <= i < lo ==> Better(side, levels[i].price, price)
        invariant forall i :: hi <= i < |levels| ==> !Better(side, levels[i].price, price)
      {
        var mid := lo + (hi - lo) / 2;
        if Better(side, levels[mid].price, price) {
          lo := mid + 1;
        } else {
          hi := mid;
        }
      }
      k := lo;
      RankUnique(side, levels, price, k);
    }

    method ApplyDelta(price: int, qty: int) returns (evicted: Option<int>)
      requires Valid() && qty >= 0
      modifies this
      ensures Valid()
      ensures Applied(levels, evicted) == AfterDelta(side, old(levels), price, qty)
    {
      AfterDeltaRefinesMap(side, levels, price, qty);
      PlacedCases(side, levels, price, qty);
      PlacedLength(side, levels, price, qty);
      var k := LowerBound(price);
      var found := k < |levels| && levels[k].price == price;
      if qty == 0 {
        if found {
          levels := levels[..k] + levels[k + 1..];
        }
        return None;
      }
      if found {
        levels := levels[k := Level(price, qty)];
      } else {
        levels := levels[..k] + [Level(price, qty)] + levels[k..];
      }
      if |levels| > BOOK_DEPTH {
        evicted := Some(levels[|levels| - 1].price);
        levels := levels[..BOOK_DEPTH];
      } else {
        evicted := None;
      }
    }

    method Clear()
      modifies this
      ensures Valid() && levels == []
    {
      levels := [];
    }

    method Depth(n: nat) returns (top: seq<Level>)
      requires Valid()
      ensures top <= levels && |top| == if n < |levels| then n else |levels|
    {
      top := if n < |levels| then levels[..n] else levels;
    }

    method SizeAtPrice(price: int) returns (qty: int)
      requires Valid()
      ensures qty == MapSize(MapOf(levels), price)
    {
      SizeAtIsMapLookup(side, levels, price);
      var k := LowerBound(price);
      qty := if k < |levels| && levels[k].price == price then levels[k].qty else 0;
    }
  }
}
