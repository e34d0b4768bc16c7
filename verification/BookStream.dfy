/** Deltas, snapshots and the unbounded copies built from them. */
module BookStream {
  import opened OrderBook

  datatype Delta = Delta(seqNo: nat, side: Side, price: int, qty: int)

  datatype Snapshot = Snapshot(seqNo: nat, bids: seq<Level>, asks: seq<Level>)

  /** An unbounded copy of a book: one price-to-size map per side. */
  datatype Maps = Maps(bids: map<int, int>, asks: map<int, int>)

  const EMPTY: Maps := Maps(map[], map[])

  function MapsOf(bids: seq<Level>, asks: seq<Level>): Maps {
    Maps(MapOf(bids), MapOf(asks))
  }

  function ApplyToMaps(m: Maps, d: Delta): Maps {
    match d.side
    case Bid => m.(bids := ApplyLevel(m.bids, d.price, d.qty))
    case Ask => m.(asks := ApplyLevel(m.asks, d.price, d.qty))
  }

  /** The copy after a run of deltas. */
  function Replay(m: Maps, ds: seq<Delta>): Maps {
    if ds == [] then m else ApplyToMaps(Replay(m, ds[..|ds| - 1]), ds[|ds| - 1])
  }

  lemma {:induction false} ReplayConcat(m: Maps, a: seq<Delta>, b: seq<Delta>)
    ensures Replay(m, a + b) == Replay(Replay(m, a), b)
    decreases |b|
  {
    if b == [] {
      assert a + b == a;
    } else {
      ReplayConcat(m, a, b[..|b| - 1]);
      assert (a + b)[..|a + b| - 1] == a + b[..|b| - 1];
    }
  }

  lemma ReplaySnoc(m: Maps, a: seq<Delta>, d: Delta)
    ensures Replay(m, a + [d]) == ApplyToMaps(Replay(m, a), d)
  {
    assert (a + [d])[..|a + [d]| - 1] == a;
  }

  // ---------------------------------------------------------------- starting points

  function At(m: Maps, side: Side, price: int): Option<int> {
    var half := if side.Bid? then m.bids else m.asks;
    if price in half then Some(half[price]) else None
  }

  /** Some delta of the run names this level. */
  predicate Touched(ds: seq<Delta>, side: Side, price: int) {
    exists d :: d in ds && d.side == side && d.price == price
  }

  lemma {:induction false} ReplayAt(m: Maps, n: Maps, ds: seq<Delta>, side: Side, price: int)
    ensures At(Replay(m, ds), side, price) ==
      if Touched(ds, side, price) then At(Replay(n, ds), side, price) else At(m, side, price)
    decreases |ds|
  {
    if ds != [] {
      var pre, d := ds[..|ds| - 1], ds[|ds| - 1];
      ReplayAt(m, n, pre, side, price);
      assert ds == pre + [d];
      assert Touched(ds, side, price) <==> Touched(pre, side, price) || (d.side == side && d.price == price);
    }
  }

  lemma MapsAgree(m: Maps, n: Maps)
    requires forall side, price :: At(m, side, price) == At(n, side, price)
    ensures m == n
  {
    forall p
      ensures p in m.bids <==> p in n.bids
      ensures p in m.asks <==> p in n.asks
      ensures p in m.bids ==> m.bids[p] == n.bids[p]
      ensures p in m.asks ==> m.asks[p] == n.asks[p]
    {
      assert At(m, Bid, p) == At(n, Bid, p);
      assert At(m, Ask, p) == At(n, Ask, p);
    }
  }

  /** Every level the copy holds is named by some delta of the run. */
  predicate AllTouched(m: Maps, ds: seq<Delta>) {
    && (forall p :: p in m.bids ==> Touched(ds, Bid, p))
    && (forall p :: p in m.asks ==> Touched(ds, Ask, p))
  }

  /** A copy that did not hear of a clear ends up like the cleared book exactly when the
      later deltas name every level it still held. */
  lemma StaleStartAgrees(m: Maps, ds: seq<Delta>)
    ensures Replay(m, ds) == Replay(EMPTY, ds) <==> AllTouched(m, ds)
  {
    var r, e := Replay(m, ds), Replay(EMPTY, ds);
    if AllTouched(m, ds) {
      forall side, price
        ensures At(r, side, price) == At(e, side, price)
      {
        ReplayAt(m, EMPTY, ds, side, price);
        ReplayAt(EMPTY, EMPTY, ds, side, price);
      }
      MapsAgree(r, e);
    }
    if r == e {
      forall side, p | At(m, side, p).Some?
        ensures Touched(ds, side, p)
      {
        ReplayAt(m, EMPTY, ds, side, p);
        ReplayAt(EMPTY, EMPTY, ds, side, p);
      }
      assert forall p :: p in m.bids ==> At(m, Bid, p).Some?;
      assert forall p :: p in m.asks ==> At(m, Ask, p).Some?;
    }
  }

  // ---------------------------------------------------------------- lost deltas

  /** The deltas of a run whose sequence number is not among the lost ones. */
  function Kept(ds: seq<Delta>, lost: set<nat>): seq<Delta> {
    if ds == [] then []
    else
      var d := ds[|ds| - 1];
      Kept(ds[..|ds| - 1], lost) + (if d.seqNo in lost then [] else [d])
  }

  lemma {:induction false} KeptConcat(a: seq<Delta>, b: seq<Delta>, lost: set<nat>)
    ensures Kept(a + b, lost) == Kept(a, lost) + Kept(b, lost)
    decreases |b|
  {
    if b == [] {
      assert a + b == a;
    } else {
      KeptConcat(a, b[..|b| - 1], lost);
      assert (a + b)[..|a + b| - 1] == a + b[..|b| - 1];
    }
  }

  lemma {:induction false} KeptAll(ds: seq<Delta>, lost: set<nat>)
    requires forall i :: 0 <= i < |ds| ==> ds[i].seqNo !in lost
    ensures Kept(ds, lost) == ds
    decreases |ds|
  {
    if ds != [] {
      KeptAll(ds[..|ds| - 1], lost);
    }
  }

  lemma {:induction false} KeptNone(ds: seq<Delta>, lost: set<nat>)
    requires forall i :: 0 <= i < |ds| ==> ds[i].seqNo in lost
    ensures Kept(ds, lost) == []
    decreases |ds|
  {
    if ds != [] {
      KeptNone(ds[..|ds| - 1], lost);
    }
  }

  lemma {:induction false} KeptUnaffected(ds: seq<Delta>, lost: set<nat>, n: nat)
    requires forall i :: 0 <= i < |ds| ==> ds[i].seqNo != n
    ensures Kept(ds, lost + {n}) == Kept(ds, lost)
    decreases |ds|
  {
    if ds != [] {
      KeptUnaffected(ds[..|ds| - 1], lost, n);
    }
  }

  // ---------------------------------------------------------------- the last word on a level

  predicate Names(d: Delta, side: Side, price: int) { d.side == side && d.price == price }

  /** The size a level has after a delta that names it. */
  function Word(d: Delta): Option<int> { if d.qty == 0 then None else Some(d.qty) }

  /** What the last delta naming a level says of it, or what was there to begin with. */
  function Said(start: Option<int>, ds: seq<Delta>, side: Side, price: int): Option<int> {
    if ds == [] then start
    else
      var d := ds[|ds| - 1];
      if Names(d, side, price) then Word(d) else Said(start, ds[..|ds| - 1], side, price)
  }

  lemma {:induction false} ReplaySays(m: Maps, ds: seq<Delta>, side: Side, price: int)
    ensures At(Replay(m, ds), side, price) == Said(At(m, side, price), ds, side, price)
    decreases |ds|
  {
    if ds != [] { ReplaySays(m, ds[..|ds| - 1], side, price); }
  }

  /** Two streams leave two copies alike exactly when they have the same last word on
      every level. */
  lemma ReplaysAgreeIff(m: Maps, a: seq<Delta>, n: Maps, b: seq<Delta>)
    ensures Replay(m, a) == Replay(n, b) <==>
      forall side, price :: Said(At(m, side, price), a, side, price) == Said(At(n, side, price), b, side, price)
  {
    forall side, price
      ensures At(Replay(m, a), side, price) == Said(At(m, side, price), a, side, price)
      ensures At(Replay(n, b), side, price) == Said(At(n, side, price), b, side, price)
    {
      ReplaySays(m, a, side, price);
      ReplaySays(n, b, side, price);
    }
    if forall side, price :: Said(At(m, side, price), a, side, price) == Said(At(n, side, price), b, side, price) {
      MapsAgree(Replay(m, a), Replay(n, b));
    }
  }

  /** The last delta naming the level is among the lost. */
  predicate LastWordLost(ds: seq<Delta>, lost: set<nat>, side: Side, price: int) {
    ds != [] &&
    var d := ds[|ds| - 1];
    if Names(d, side, price) then d.seqNo in lost else LastWordLost(ds[..|ds| - 1], lost, side, price)
  }

  lemma {:induction false} LastWordKept(start: Option<int>, ds: seq<Delta>, lost: set<nat>, side: Side, price: int)
    requires !LastWordLost(ds, lost, side, price)
    ensures Said(start, Kept(ds, lost), side, price) == Said(start, ds, side, price)
    decreases |ds|
  {
    if ds != [] {
      var pre, d := ds[..|ds| - 1], ds[|ds| - 1];
      var kept := Kept(pre, lost);
      if !Names(d, side, price) { LastWordKept(start, pre, lost, side, price); }
      assert (kept + [d])[..|kept + [d]| - 1] == kept;
      assert kept + [] == kept;
    }
  }

  /** Wherever the last word on a level was lost, what the kept deltas left there is the
      same as what was lost. */
  ghost predicate LossHarmless(m: Maps, ds: seq<Delta>, lost: set<nat>) {
    forall side, price :: LastWordLost(ds, lost, side, price) ==>
      Said(At(m, side, price), Kept(ds, lost), side, price) == Said(At(m, side, price), ds, side, price)
  }

  /** Losing deltas leaves a copy right exactly when the loss is harmless level by level. */
  lemma LossyReplayIff(m: Maps, ds: seq<Delta>, lost: set<nat>)
    ensures Replay(m, Kept(ds, lost)) == Replay(m, ds) <==> LossHarmless(m, ds, lost)
  {
    ReplaysAgreeIff(m, Kept(ds, lost), m, ds);
    forall side, price | !LastWordLost(ds, lost, side, price)
      ensures Said(At(m, side, price), Kept(ds, lost), side, price) == Said(At(m, side, price), ds, side, price)
    {
      LastWordKept(At(m, side, price), ds, lost, side, price);
    }
  }
}
