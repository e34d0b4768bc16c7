/** The matching engine as the imperative code: loops over levels and over the resting
    orders in whatever order the hash map yields them. */
module MatchingEngineImpl {
  import opened Basics
  import opened OrderBook
  import opened Walk
  import opened Matching
  import opened MatchingOutcomes

  /** Fills that only name a level's price, with positive sizes. */
  ghost predicate FillsAt(fills: seq<Fill>, price: int) {
    forall i :: 0 <= i < |fills| ==> fills[i].price == price && fills[i].size > 0
  }

  // ---------------------------------------------------------------- loop bookkeeping

  ghost function Joined(done: seq<Take>, rest: Walked): Walked { Walked(done + rest.takes, rest.left) }

  lemma GreedyTakes(side: Side, limit: Option<int>, levels: seq<Level>, i: nat, size: int, done: seq<Take>)
    requires i < |levels| && size > 0 && Crosses(side, limit, levels[i].price)
    ensures var t := Min(size, levels[i].qty);
      Joined(done, Greedy(side, limit, levels[i..], size)) ==
      Joined(done + [Take(levels[i].price, t)], Greedy(side, limit, levels[i + 1..], size - t))
  {
    assert levels[i..][1..] == levels[i + 1..];
    var t := Min(size, levels[i].qty);
    var rest := Greedy(side, limit, levels[i + 1..], size - t);
    assert done + ([Take(levels[i].price, t)] + rest.takes) == (done + [Take(levels[i].price, t)]) + rest.takes;
  }

  lemma AsFillsSnoc(id: nat, takes: seq<Take>, t: Take)
    ensures AsFills(id, takes + [t]) == AsFills(id, takes) + [Fill(id, t.price, t.size)]
  {
  }

  function OneFill(id: nat, o: Order, reduction: int): seq<Fill> {
    if FillSize(o, reduction) > 0 then [Fill(id, o.key.price, FillSize(o, reduction))] else []
  }

  /** The orders of the level outside `todo` have absorbed the reduction. */
  ghost predicate Visited(start: map<nat, Order>, now: map<nat, Order>, todo: set<nat>, key: Key, reduction: int) {
    && now.Keys == start.Keys
    && forall id :: id in start ==>
         now[id] == if id !in todo && start[id].key == key then Absorb(start[id], reduction) else start[id]
  }

  /** The fills emitted so far are those of the orders outside `todo`, each once. */
  ghost predicate Accounted(added: seq<Fill>, start: map<nat, Order>, todo: set<nat>, key: Key, reduction: int) {
    && FillsAt(added, key.price)
    && forall id ::
         FilledFor(added, id) ==
         if id in start && id !in todo && start[id].key == key then FillSize(start[id], reduction) else 0
  }

  lemma FillSizeNonNegative(o: Order, reduction: int)
    ensures FillSize(o, reduction) >= 0
  {
  }

  lemma AccountedStep(added: seq<Fill>, start: map<nat, Order>, todo: set<nat>, key: Key, reduction: int, id: nat)
    requires Accounted(added, start, todo, key, reduction) && id in start && id in todo && start[id].key == key
    ensures Accounted(added + OneFill(id, start[id], reduction), start, todo - {id}, key, reduction)
  {
    FillSizeNonNegative(start[id], reduction);
    var one := OneFill(id, start[id], reduction);
    if one == [] {
      assert added + one == added;
    } else {
      forall x ensures FilledFor(added + one, x) == FilledFor(added, x) + (if x == id then FillSize(start[id], reduction) else 0) {
        FilledForSnoc(added, one[0], x);
      }
    }
  }

  /** The orders outside `todo` that the reduction fills completely. */
  ghost function Emptied(start: map<nat, Order>, todo: set<nat>, key: Key, reduction: int): set<nat> {
    set id | id in start && id !in todo && Exhausted(start[id], key, reduction)
  }

  lemma EmptiedStep(start: map<nat, Order>, todo: set<nat>, key: Key, reduction: int, id: nat)
    requires id in start && id in todo
    ensures Emptied(start, todo - {id}, key, reduction) ==
      Emptied(start, todo, key, reduction) + if Exhausted(start[id], key, reduction) then {id} else {}
  {
  }

  lemma VisitedStep(start: map<nat, Order>, now: map<nat, Order>, todo: set<nat>, key: Key, reduction: int, id: nat)
    requires Visited(start, now, todo, key, reduction) && id in start && id in todo
    ensures now[id] == start[id]
    ensures Visited(start, now[id := AfterVisit(now[id], key, reduction)], todo - {id}, key, reduction)
  {
  }

  lemma AccountedSkip(added: seq<Fill>, start: map<nat, Order>, todo: set<nat>, key: Key, reduction: int, id: nat)
    requires Accounted(added, start, todo, key, reduction) && id in start && start[id].key != key
    ensures Accounted(added, start, todo - {id}, key, reduction)
  {
  }

  function AfterVisit(o: Order, key: Key, reduction: int): Order {
    if o.key == key then Absorb(o, reduction) else o
  }

  function VisitFills(id: nat, o: Order, key: Key, reduction: int): seq<Fill> {
    if o.key == key then OneFill(id, o, reduction) else []
  }

  /** The loop over the orders has everything right outside `todo`. */
  ghost predicate Progress(start: map<nat, Order>, now: map<nat, Order>, full: set<nat>, added: seq<Fill>,
                           todo: set<nat>, key: Key, reduction: int) {
    && todo <= start.Keys
    && Visited(start, now, todo, key, reduction)
    && full == Emptied(start, todo, key, reduction)
    && Accounted(added, start, todo, key, reduction)
  }

  lemma Regrouped(a: seq<Fill>, b: seq<Fill>, c: seq<Fill>)
    ensures (a + b) + c == a + (b + c)
  {
  }

  lemma ProgressStart(start: map<nat, Order>, key: Key, reduction: int)
    ensures Progress(start, start, {}, [], start.Keys, key, reduction)
  {
  }

  lemma ProgressStep(start: map<nat, Order>, now: map<nat, Order>, full: set<nat>, added: seq<Fill>,
                     todo: set<nat>, key: Key, reduction: int, id: nat)
    requires Progress(start, now, full, added, todo, key, reduction) && id in todo
    ensures id in now && now[id] == start[id]
    ensures Progress(start, now[id := AfterVisit(now[id], key, reduction)],
                     full + (if Exhausted(now[id], key, reduction) then {id} else {}),
                     added + VisitFills(id, now[id], key, reduction), todo - {id}, key, reduction)
  {
    VisitedStep(start, now, todo, key, reduction, id);
    EmptiedStep(start, todo, key, reduction, id);
    if start[id].key == key {
      AccountedStep(added, start, todo, key, reduction, id);
    } else {
      AccountedSkip(added, start, todo, key, reduction, id);
      assert added + [] == added;
    }
  }

  lemma VisitedAllIsReduced(start: map<nat, Order>, now: map<nat, Order>, full: set<nat>, key: Key, reduction: int)
    requires Visited(start, now, {}, key, reduction)
    requires full == Emptied(start, {}, key, reduction)
    ensures now - full == Reduced(start, key, reduction)
  {
  }

  class MatchingEngine {
    var restingOrders: map<nat, Order>
    var lastObservedSize: map<Key, int>
    var fills: seq<Fill>
    /** How many orders have been put to rest so far. */
    var placements: nat

    ghost function State(): Matcher reads this { Matcher(restingOrders, lastObservedSize, placements) }

    constructor ()
      ensures State() == Matcher(map[], map[], 0) && WellFormed(State()) && fills == []
    {
      restingOrders, lastObservedSize, fills, placements := map[], map[], [], 0;
    }

    method AnyRestingOrderAt(key: Key) returns (found: bool)
      ensures found <==> AnyRestingAt(restingOrders, key)
    {
      var todo := restingOrders.Keys;
      while todo != {}
        invariant todo <= restingOrders.Keys
        invariant forall id :: id in restingOrders && id !in todo ==> restingOrders[id].key != key
        decreases |todo|
      {
        SomeElement(todo);
        var id :| id in todo;
        if restingOrders[id].key == key {
          return true;
        }
        todo := todo - {id};
      }
      return false;
    }

    /** Walk the opposite side level by level, emitting a fill for each take. */
    method WalkBook(orderId: nat, side: Side, limit: Option<int>, levels: seq<Level>, size: int) returns (remaining: int)
      requires size > 0
      modifies this`fills
      ensures remaining == Greedy(side, limit, levels, size).left
      ensures fills == old(fills) + AsFills(orderId, Greedy(side, limit, levels, size).takes)
    {
      remaining := size;
      ghost var done: seq<Take> := [];
      ghost var whole := Greedy(side, limit, levels, size);
      var i := 0;
      assert levels[0..] == levels;
      assert Joined(done, whole) == whole;
      while i < |levels| && remaining > 0 && Crosses(side, limit, levels[i].price)
        invariant 0 <= i <= |levels|
        invariant Joined(done, Greedy(side, limit, levels[i..], remaining)) == whole
        invariant fills == old(fills) + AsFills(orderId, done)
      {
        var fillSize := Min(remaining, levels[i].qty);
        ghost var t := Take(levels[i].price, fillSize);
        GreedyTakes(side, limit, levels, i, remaining, done);
        AsFillsSnoc(orderId, done, t);
        Regrouped(old(fills), AsFills(orderId, done), [Fill(orderId, levels[i].price, fillSize)]);
        fills := fills + [Fill(orderId, levels[i].price, fillSize)];
        done := done + [t];
        remaining := remaining - fillSize;
        i := i + 1;
      }
      assert Greedy(side, limit, levels[i..], remaining) == Walked([], remaining);
    }

    /** The part of a placement that rests. */
    method RestOrder(b: Book, orderId: nat, side: Side, price: int, remaining: int)
      requires ValidBook(b)
      modifies this`restingOrders, this`lastObservedSize, this`placements
      ensures State() == Rest(old(State()), b, orderId, side, price, remaining)
    {
      var key := Key(side, price);
      var ownSide := if side.Bid? then b.bids else b.asks;
      var queueAhead := SizeAt(side, ownSide, price);
      if key !in lastObservedSize {
        lastObservedSize := lastObservedSize[key := queueAhead];
      }
      restingOrders := restingOrders[orderId := Order(key, remaining, queueAhead, b.lastSeq, placements)];
      placements := placements + 1;
    }

    /** The synchronous fill and what rests, as the specification computes them. */
    method Execute(b: Book, orderId: nat, side: Side, type': OrderType, price: int, size: int)
        returns (result: OrderResult)
      requires ValidBook(b)
      modifies this
      ensures State() == Place(old(State()), b, orderId, side, type', price, size)
      ensures result == Answer(b, orderId, side, type', price, size)
      ensures fills == old(fills) + AnswerFills(b, orderId, side, type', price, size)
    {
      if size <= 0 {
        return Rejected("size must be positive");
      }
      if type'.Limit? && price <= 0 {
        return Rejected("limit price must be positive");
      }
      var opposite := if side.Bid? then b.asks else b.bids;
      var remaining := WalkBook(orderId, side, if type'.Limit? then Some(price) else None, opposite, size);
      if remaining > 0 && type'.Limit? {
        RestOrder(b, orderId, side, price, remaining);
      }
      return Accepted(orderId, size - remaining);
    }

    method PlaceOrder(b: Book, orderId: nat, side: Side, type': OrderType, price: int, size: int)
        returns (result: OrderResult, ghost added: seq<Fill>)
      requires WellFormed(State()) && ValidBook(b) && orderId !in restingOrders
      modifies this
      ensures WellFormed(State()) && State() == Place(old(State()), b, orderId, side, type', price, size)
      ensures fills == old(fills) + added && PlaceAnswers(b, orderId, side, type', price, size, result, added)
      ensures PlaceRests(old(State()), State(), b, orderId, side, type', price, size, result)
    {
      PlaceKeepsWellFormed(State(), b, orderId, side, type', price, size);
      PlaceAnswersSo(b, orderId, side, type', price, size);
      PlaceRestsSo(State(), b, orderId, side, type', price, size);
      added := AnswerFills(b, orderId, side, type', price, size);
      result := Execute(b, orderId, side, type', price, size);
    }

    method CancelOrder(orderId: nat) returns (result: OrderResult)
      requires WellFormed(State())
      modifies this
      ensures WellFormed(State()) && State() == Cancel(old(State()), orderId) && fills == old(fills)
      ensures CancelLeaves(old(State()), State(), orderId, result)
    {
      CancelKeepsWellFormed(State(), orderId);
      CancelLeavesSo(State(), orderId);
      if orderId !in restingOrders {
        return Rejected("order not found");
      }
      var key := restingOrders[orderId].key;
      restingOrders := restingOrders - {orderId};
      var any := AnyRestingOrderAt(key);
      if !any {
        lastObservedSize := lastObservedSize - {key};
      }
      return Accepted(orderId, 0);
    }

    /** One order of the level absorbs the reduction. */
    method AbsorbOne(id: nat, reduction: int) returns (full: bool)
      requires id in restingOrders && restingOrders[id].queueAhead >= 0 && reduction > 0
      modifies this`restingOrders, this`fills
      ensures restingOrders == old(restingOrders)[id := Absorb(old(restingOrders)[id], reduction)]
      ensures full == Exhausted(old(restingOrders)[id], old(restingOrders)[id].key, reduction)
      ensures fills == old(fills) + OneFill(id, old(restingOrders)[id], reduction)
    {
      var order := restingOrders[id];
      var absorbed := Min(order.queueAhead, reduction);
      var overflow := reduction - absorbed;
      full := false;
      var after := order.(queueAhead := order.queueAhead - absorbed);
      if overflow > 0 && order.remaining > 0 {
        var fillSize := Min(overflow, order.remaining);
        fills := fills + [Fill(id, order.key.price, fillSize)];
        after := after.(remaining := order.remaining - fillSize);
        full := after.remaining == 0;
      }
      restingOrders := restingOrders[id := after];
    }

    method Visit(id: nat, key: Key, reduction: int) returns (full: bool)
      requires id in restingOrders && restingOrders[id].queueAhead >= 0 && reduction > 0
      modifies this`restingOrders, this`fills
      ensures restingOrders == old(restingOrders)[id := AfterVisit(old(restingOrders)[id], key, reduction)]
      ensures full == Exhausted(old(restingOrders)[id], key, reduction)
      ensures fills == old(fills) + VisitFills(id, old(restingOrders)[id], key, reduction)
    {
      full := false;
      if restingOrders[id].key == key {
        full := AbsorbOne(id, reduction);
      }
    }

    /** Every order of the level absorbs the reduction, in any order of visiting them. */
    method ReduceLevel(key: Key, reduction: int) returns (fullyFilled: set<nat>, ghost added: seq<Fill>)
      requires OrdersInv(State()) && reduction > 0
      modifies this`restingOrders, this`fills
      ensures Progress(old(restingOrders), restingOrders, fullyFilled, added, {}, key, reduction)
      ensures fills == old(fills) + added
    {
      ghost var start := restingOrders;
      added := [];
      var todo := restingOrders.Keys;
      ProgressStart(start, key, reduction);
      fullyFilled := {};
      while todo != {}
        invariant Progress(start, restingOrders, fullyFilled, added, todo, key, reduction)
        invariant fills == old(fills) + added
        decreases |todo|
      {
        SomeElement(todo);
        var id :| id in todo;
        ProgressStep(start, restingOrders, fullyFilled, added, todo, key, reduction, id);
        ghost var more := VisitFills(id, restingOrders[id], key, reduction);
        Regrouped(old(fills), added, more);
        added := added + more;
        var full := Visit(id, key, reduction);
        if full {
          fullyFilled := fullyFilled + {id};
        }
        todo := todo - {id};
      }
    }

    /** The level shrank: fill, drop what is full, and stop tracking an empty level. */
    method Shrink(key: Key, newQuantity: int) returns (ghost added: seq<Fill>)
      requires OrdersInv(State()) && key in lastObservedSize && newQuantity < lastObservedSize[key]
      modifies this
      ensures State() == OnDelta(old(State()), key, newQuantity)
      ensures fills == old(fills) + added
      ensures Accounted(added, old(restingOrders), {}, key, old(lastObservedSize)[key] - newQuantity)
    {
      var reduction := lastObservedSize[key] - newQuantity;
      var fullyFilled;
      fullyFilled, added := ReduceLevel(key, reduction);
      VisitedAllIsReduced(old(restingOrders), restingOrders, fullyFilled, key, reduction);
      lastObservedSize := lastObservedSize[key := newQuantity];
      restingOrders := restingOrders - fullyFilled;
      var any := AnyRestingOrderAt(key);
      if !any {
        lastObservedSize := lastObservedSize - {key};
      }
    }

    method OnBookDelta(key: Key, newQuantity: int) returns (ghost added: seq<Fill>)
      requires WellFormed(State())
      modifies this
      ensures WellFormed(State())
      ensures State() == OnDelta(old(State()), key, newQuantity)
      ensures fills == old(fills) + added && FillsAt(added, key.price)
      ensures forall id :: FilledFor(added, id) == DeltaFill(old(State()), key, newQuantity, id)
    {
      DeltaKeepsWellFormed(State(), key, newQuantity);
      added := [];
      if key !in lastObservedSize {
        NoFillWithoutReduction(State(), key, newQuantity);
        return;
      }
      if newQuantity >= lastObservedSize[key] {
        NoFillWithoutReduction(State(), key, newQuantity);
        lastObservedSize := lastObservedSize[key := newQuantity];
        return;
      }
      AccountedIsDelta(State(), key, newQuantity);
      added := Shrink(key, newQuantity);
    }
  }

  lemma AccountedIsDelta(m: Matcher, key: Key, qty: int)
    requires key in m.last && qty < m.last[key]
    ensures forall added :: Accounted(added, m.resting, {}, key, m.last[key] - qty) ==>
      (FillsAt(added, key.price) && forall id :: FilledFor(added, id) == DeltaFill(m, key, qty, id))
  {
  }

  lemma NoFillWithoutReduction(m: Matcher, key: Key, qty: int)
    requires WellFormed(m) && Reduction(m, key, qty) == 0
    ensures forall id :: DeltaFill(m, key, qty, id) == 0
  {
  }
}
