/** The matching engine: resting limit orders filled by queue-ahead accounting. */
module Matching {
  import opened Basics
  import opened OrderBook
  import opened Walk

  datatype OrderType = Market | Limit

  datatype Key = Key(side: Side, price: int)

  /** A resting limit order. `ordinal` (history) is its place in the order of placements. */
  datatype Order = Order(key: Key, remaining: int, queueAhead: int, insertedAtSeq: nat, ordinal: nat)

  datatype Fill = Fill(orderId: nat, price: int, size: int)

  datatype OrderResult = Accepted(orderId: nat, filled: int) | Rejected(reason: string)

  /** What the engine reads of the book. */
  datatype Book = Book(bids: seq<Level>, asks: seq<Level>, lastSeq: nat)

  datatype Matcher = Matcher(resting: map<nat, Order>, last: map<Key, int>, placements: nat)

  ghost predicate ValidBook(b: Book) { ValidSide(Bid, b.bids) && ValidSide(Ask, b.asks) }

  function BookSideOf(b: Book, side: Side): seq<Level> { if side.Bid? then b.bids else b.asks }

  predicate AnyRestingAt(resting: map<nat, Order>, key: Key) {
    exists id :: id in resting && resting[id].key == key
  }

  // ---------------------------------------------------------------- placing

  function LimitOf(type': OrderType, price: int): Option<int> {
    if type'.Limit? then Some(price) else None
  }

  function Rejection(type': OrderType, price: int, size: int): Option<string> {
    if size <= 0 then Some("size must be positive")
    else if type'.Limit? && price <= 0 then Some("limit price must be positive")
    else None
  }

  function SyncWalk(b: Book, side: Side, type': OrderType, price: int, size: int): Walked {
    Greedy(side, LimitOf(type', price), BookSideOf(b, Opposite(side)), size)
  }

  /** What is left of a limit order rests behind everything already queued at its price. */
  function Rest(m: Matcher, b: Book, id: nat, side: Side, price: int, left: int): Matcher {
    var key := Key(side, price);
    var queue := SizeAt(side, BookSideOf(b, side), price);
    Matcher(m.resting[id := Order(key, left, queue, b.lastSeq, m.placements)],
            if key in m.last then m.last else m.last[key := queue],
            m.placements + 1)
  }

  function Place(m: Matcher, b: Book, id: nat, side: Side, type': OrderType, price: int, size: int): Matcher {
    if Rejection(type', price, size).Some? then m
    else
      var left := SyncWalk(b, side, type', price, size).left;
      if left > 0 && type'.Limit? then Rest(m, b, id, side, price, left) else m
  }

  /** How much of the order fills at once. */
  function SyncFill(b: Book, side: Side, type': OrderType, price: int, size: int): int {
    if Rejection(type', price, size).Some? then 0 else size - SyncWalk(b, side, type', price, size).left
  }

  // ---------------------------------------------------------------- canceling

  function Untrack(last: map<Key, int>, resting: map<nat, Order>, key: Key): map<Key, int> {
    if AnyRestingAt(resting, key) then last else last - {key}
  }

  function Cancel(m: Matcher, id: nat): Matcher {
    if id !in m.resting then m
    else
      var resting := m.resting - {id};
      m.(resting := resting, last := Untrack(m.last, resting, m.resting[id].key))
  }

  // ---------------------------------------------------------------- level reductions

  function Overflow(o: Order, reduction: int): int { reduction - Min(o.queueAhead, reduction) }

  /** What a reduction of its level fills of one order. */
  function FillSize(o: Order, reduction: int): int {
    if Overflow(o, reduction) > 0 && o.remaining > 0 then Min(Overflow(o, reduction), o.remaining) else 0
  }

  function Absorb(o: Order, reduction: int): Order {
    o.(queueAhead := o.queueAhead - Min(o.queueAhead, reduction), remaining := o.remaining - FillSize(o, reduction))
  }

  predicate Exhausted(o: Order, key: Key, reduction: int) {
    o.key == key && FillSize(o, reduction) > 0 && FillSize(o, reduction) == o.remaining
  }

  function Reduced(resting: map<nat, Order>, key: Key, reduction: int): map<nat, Order> {
    map id | id in resting && !Exhausted(resting[id], key, reduction) ::
      if resting[id].key == key then Absorb(resting[id], reduction) else resting[id]
  }

  /** The reduction a delta causes at a tracked level; zero if the level grew. */
  function Reduction(m: Matcher, key: Key, qty: int): int {
    if key in m.last then Max(0, m.last[key] - qty) else 0
  }

  /** A book delta: remember the new size and let every order at the level absorb the
      reduction. The result is a map over order ids, so no iteration order can show in it. */
  function OnDelta(m: Matcher, key: Key, qty: int): Matcher {
    if key !in m.last then m
    else if qty >= m.last[key] then m.(last := m.last[key := qty])
    else
      var resting := Reduced(m.resting, key, m.last[key] - qty);
      m.(resting := resting, last := Untrack(m.last[key := qty], resting, key))
  }

  /** What the delta fills of one order. */
  function DeltaFill(m: Matcher, key: Key, qty: int, id: nat): int {
    if id in m.resting && m.resting[id].key == key then FillSize(m.resting[id], Reduction(m, key, qty)) else 0
  }

  // ---------------------------------------------------------------- fills as emitted

  /** The total a list of fills gives one order. */
  function FilledFor(fills: seq<Fill>, id: nat): int {
    if fills == [] then 0
    else FilledFor(fills[..|fills| - 1], id) + (if fills[|fills| - 1].orderId == id then fills[|fills| - 1].size else 0)
  }

  lemma FilledForSnoc(fills: seq<Fill>, f: Fill, id: nat)
    ensures FilledFor(fills + [f], id) == FilledFor(fills, id) + (if f.orderId == id then f.size else 0)
  {
    assert (fills + [f])[..|fills + [f]| - 1] == fills;
  }

  lemma {:induction false} FilledForConcat(a: seq<Fill>, b: seq<Fill>, id: nat)
    ensures FilledFor(a + b, id) == FilledFor(a, id) + FilledFor(b, id)
    decreases |b|
  {
    if b == [] {
      assert a + b == a;
    } else {
      FilledForConcat(a, b[..|b| - 1], id);
      assert (a + b)[..|a + b| - 1] == a + b[..|b| - 1];
    }
  }

  function AsFills(id: nat, takes: seq<Take>): seq<Fill> {
    seq(|takes|, i requires 0 <= i < |takes| => Fill(id, takes[i].price, takes[i].size))
  }

  // ---------------------------------------------------------------- well-formedness

  ghost predicate OrdersInv(m: Matcher) {
    forall id :: id in m.resting ==> m.resting[id].remaining > 0 && m.resting[id].queueAhead >= 0
  }

  /** Exactly the levels that hold a resting order are tracked. */
  ghost predicate KeysInv(m: Matcher) {
    forall key :: key in m.last <==> AnyRestingAt(m.resting, key)
  }

  ghost predicate WellFormed(m: Matcher) { OrdersInv(m) && KeysInv(m) }

  lemma PlaceKeepsWellFormed(m: Matcher, b: Book, id: nat, side: Side, type': OrderType, price: int, size: int)
    requires WellFormed(m) && ValidBook(b) && id !in m.resting
    ensures WellFormed(Place(m, b, id, side, type', price, size))
  {
    var m' := Place(m, b, id, side, type', price, size);
    SizeAtNonNegative(side, BookSideOf(b, side), price);
    if m' != m {
      forall key
        ensures key in m'.last <==> AnyRestingAt(m'.resting, key)
      {
        if key in m.last {
          assert AnyRestingAt(m.resting, key);
          var x :| x in m.resting && m.resting[x].key == key;
          assert x in m'.resting && m'.resting[x].key == key;
        }
        if key == Key(side, price) {
          assert id in m'.resting && m'.resting[id].key == key;
        }
        if AnyRestingAt(m'.resting, key) {
          var x :| x in m'.resting && m'.resting[x].key == key;
          assert x == id || x in m.resting;
        }
      }
    }
  }

  lemma SizeAtNonNegative(side: Side, ls: seq<Level>, price: int)
    requires Positive(ls)
    ensures SizeAt(side, ls, price) >= 0
  {
  }

  lemma CancelKeepsWellFormed(m: Matcher, id: nat)
    requires WellFormed(m)
    ensures WellFormed(Cancel(m, id))
  {
    if id in m.resting {
      var m' := Cancel(m, id);
      var gone := m.resting[id].key;
      forall key
        ensures key in m'.last <==> AnyRestingAt(m'.resting, key)
      {
        if key != gone && AnyRestingAt(m.resting, key) {
          var x :| x in m.resting && m.resting[x].key == key;
          assert x in m'.resting;
        }
        if AnyRestingAt(m'.resting, key) {
          var x :| x in m'.resting && m'.resting[x].key == key;
          assert x in m.resting;
        }
      }
    }
  }

  lemma DeltaKeepsWellFormed(m: Matcher, key: Key, qty: int)
    requires WellFormed(m)
    ensures WellFormed(OnDelta(m, key, qty))
  {
    if key in m.last && qty < m.last[key] {
      var m' := OnDelta(m, key, qty);
      forall k
        ensures k in m'.last <==> AnyRestingAt(m'.resting, k)
      {
        if k != key && AnyRestingAt(m.resting, k) {
          var x :| x in m.resting && m.resting[x].key == k;
          assert x in m'.resting && m'.resting[x].key == k;
        }
        if AnyRestingAt(m'.resting, k) {
          var x :| x in m'.resting && m'.resting[x].key == k;
          assert x in m.resting && m.resting[x].key == k;
        }
      }
    }
  }
}
