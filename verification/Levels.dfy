/** The levels of a mirror's map, best first, as snapshots carry them. */
module Levels {
  import opened Basics
  import opened OrderBook

  /** What collecting a map's entries and sorting them best first yields. */
  ghost predicate IsLevelsOf(side: Side, m: map<int, int>, ls: seq<Level>) {
    Sorted(side, ls) && MapOf(ls) == m
  }

  function Inserted(side: Side, ls: seq<Level>, p: int, q: int): seq<Level> {
    ls[..Rank(side, ls, p)] + [Level(p, q)] + Worse(side, ls, p)
  }

  lemma InsertLevel(side: Side, m: map<int, int>, ls: seq<Level>, p: int, q: int)
    requires IsLevelsOf(side, m, ls) && p !in m
    ensures IsLevelsOf(side, m[p := q], Inserted(side, ls, p, q))
  {
    var a, c, mid := ls[..Rank(side, ls, p)], Worse(side, ls, p), [Level(p, q)];
    Around(side, ls, p);
    SortedAround(side, a, mid, c, p);
    PlacedRefinesMap(side, ls, p, 0);
    InsertIntoMap(a, c, p, q);
    assert ls == a + [] + c;
  }

  lemma InsertIntoMap(a: seq<Level>, c: seq<Level>, p: int, q: int)
    requires p !in MapOf(a + [] + c)
    ensures MapOf(a + [Level(p, q)] + c) == MapOf(a + [] + c)[p := q]
  {
    MapOfThree(a, [], c);
    MapOfThree(a, [Level(p, q)], c);
    MapOfMiddle([Level(p, q)]);
  }

  /** The code's version: collect the entries in any order and put each where it sorts. */
  method SortLevels(side: Side, m: map<int, int>) returns (ls: seq<Level>)
    ensures IsLevelsOf(side, m, ls)
  {
    ls := [];
    var todo, done := m.Keys, map[];
    while todo != {}
      invariant todo <= m.Keys && done == map p | p in m && p !in todo :: m[p]
      invariant IsLevelsOf(side, done, ls)
      decreases |todo|
    {
      SomeElement(todo);
      var p :| p in todo;
      InsertLevel(side, done, ls, p, m[p]);
      ls := Inserted(side, ls, p, m[p]);
      done, todo := done[p := m[p]], todo - {p};
    }
    assert done == m;
  }

  // ---------------------------------------------------------------- the same as a function

  predicate IsBest(side: Side, s: set<int>, p: int) { p in s && forall q :: q in s && q != p ==> Better(side, p, q) }

  lemma {:induction false} SomeBest(side: Side, s: set<int>)
    requires s != {}
    ensures exists p :: IsBest(side, s, p)
    decreases |s|
  {
    SomeElement(s);
    var x :| x in s;
    var rest := s - {x};
    assert forall q :: q in s ==> q == x || q in rest;
    if rest == {} {
      assert IsBest(side, s, x);
    } else {
      SomeBest(side, rest);
      var p :| IsBest(side, rest, p);
      assert IsBest(side, s, if Better(side, x, p) then x else p);
    }
  }

  function BestPrice(side: Side, s: set<int>): (p: int)
    requires s != {}
    ensures IsBest(side, s, p)
  {
    SomeBest(side, s);
    var p :| IsBest(side, s, p);
    p
  }

  lemma BestFirst(side: Side, m: map<int, int>, p: int, rest: seq<Level>)
    requires m.Keys != {} && IsBest(side, m.Keys, p) && IsLevelsOf(side, m - {p}, rest)
    ensures IsLevelsOf(side, m, [Level(p, m[p])] + rest)
  {
    var first := [Level(p, m[p])];
    MapOfConcat(first, rest);
    MapOfMiddle(first);
    forall i | 0 <= i < |rest|
      ensures Better(side, p, rest[i].price)
    {
      MapOfMeaning(rest);
      assert rest[i].price in MapOf(rest);
    }
    assert MapOf(first + rest) == m;
  }

  function MapToLevels(side: Side, m: map<int, int>): (ls: seq<Level>)
    ensures IsLevelsOf(side, m, ls)
    decreases |m|
  {
    if m.Keys == {} then []
    else
      var p := BestPrice(side, m.Keys);
      assert (m - {p}).Keys == m.Keys - {p};
      var rest := MapToLevels(side, m - {p});
      BestFirst(side, m, p, rest);
      [Level(p, m[p])] + rest
  }

  /** Sorting in whatever order the map yields its entries gives that list and no other. */
  lemma LevelsAreUnique(side: Side, m: map<int, int>, ls: seq<Level>)
    requires IsLevelsOf(side, m, ls)
    ensures ls == MapToLevels(side, m)
  {
    SortedSideIsCanonical(side, ls, MapToLevels(side, m));
  }
}
