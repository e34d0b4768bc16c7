/** What placing and canceling an order come to, said of the book, the answer, the fills and
    the resting orders alone. */
module MatchingOutcomes {
  import opened Basics
  import opened OrderBook
  import opened Walk
  import opened Matching
  import opened MatchingRuns

  // ---------------------------------------------------------------- placing

  /** A limit order buys at its price or lower and sells at its price or higher. */
  predicate WithinLimit(side: Side, type': OrderType, price: int, p: int) {
    type'.Limit? ==> if side.Bid? then p <= price else p >= price
  }

  /** The quantity of all levels the order may trade with, wherever they stand. */
  function Available(side: Side, type': OrderType, price: int, levels: seq<Level>): int {
    if levels == [] then 0
    else (if WithinLimit(side, type', price, levels[0].price) then levels[0].qty else 0)
         + Available(side, type', price, levels[1..])
  }

  /** Who sells to a buyer and buys from a seller. */
  function Counterside(b: Book, side: Side): seq<Level> { if side.Bid? then b.asks else b.bids }

  function OwnSide(b: Book, side: Side): seq<Level> { if side.Bid? then b.bids else b.asks }

  /** The fills of one order: in book order, each at a level's price and within its size, and
      none beyond the limit. */
  ghost predicate FillsOf(added: seq<Fill>, id: nat, side: Side, type': OrderType, price: int, levels: seq<Level>) {
    && |added| <= |levels|
    && forall i :: 0 <= i < |added| ==>
         && added[i].orderId == id && added[i].price == levels[i].price && 0 < added[i].size <= levels[i].qty
         && WithinLimit(side, type', price, added[i].price)
  }

  /** The answer to a placement and the fills emitted with it. */
  ghost predicate PlaceAnswers(b: Book, id: nat, side: Side, type': OrderType, price: int, size: int,
                               result: OrderResult, added: seq<Fill>) {
    if size <= 0 then result == Rejected("size must be positive") && added == []
    else if type'.Limit? && price <= 0 then result == Rejected("limit price must be positive") && added == []
    else
      && result == Accepted(id, Min(size, Available(side, type', price, Counterside(b, side))))
      && FillsOf(added, id, side, type', price, Counterside(b, side))
      && FilledFor(added, id) == result.filled
  }

  /** What an order that got `filled` at once leaves behind: a limit order rests with the rest
      of its size behind everything the book holds at its price; nothing else changes. */
  ghost predicate PlaceRests(m: Matcher, m': Matcher, b: Book, id: nat, side: Side, type': OrderType, price: int,
                             size: int, result: OrderResult) {
    if result.Accepted? && type'.Limit? && result.filled < size then
      var key, queue := Key(side, price), MapSize(MapOf(OwnSide(b, side)), price);
      && m'.resting == m.resting[id := Order(key, size - result.filled, queue, b.lastSeq, m.placements)]
      && m'.last == (if key in m.last then m.last else m.last[key := queue])
      && m'.placements == m.placements + 1
    else m' == m
  }

  lemma {:induction false} AvailableIsCrossing(side: Side, type': OrderType, price: int, levels: seq<Level>)
    ensures Available(side, type', price, levels) == Crossing(side, LimitOf(type', price), levels)
    decreases |levels|
  {
    if levels != [] { AvailableIsCrossing(side, type', price, levels[1..]); }
  }

  lemma {:induction false} FilledForTakes(id: nat, takes: seq<Take>)
    ensures FilledFor(AsFills(id, takes), id) == Filled(takes)
    decreases |takes|
  {
    if takes != [] {
      var first := Fill(id, takes[0].price, takes[0].size);
      FilledForTakes(id, takes[1..]);
      assert AsFills(id, takes) == [first] + AsFills(id, takes[1..]);
      FilledForConcat([first], AsFills(id, takes[1..]), id);
      FilledForSnoc([], first, id);
      assert [] + [first] == [first];
    }
  }

  lemma FillsAreWithinLimit(b: Book, id: nat, side: Side, type': OrderType, price: int, size: int)
    requires ValidBook(b)
    ensures FillsOf(AsFills(id, SyncWalk(b, side, type', price, size).takes), id, side, type', price, Counterside(b, side))
  {
    var levels, takes := Counterside(b, side), SyncWalk(b, side, type', price, size).takes;
    forall i | 0 <= i < |takes|
      ensures i < |levels| && takes[i].price == levels[i].price && 0 < takes[i].size <= levels[i].qty
      ensures WithinLimit(side, type', price, takes[i].price)
    {
      TakesAreLevels(side, LimitOf(type', price), levels, size, i);
    }
    if takes != [] { TakesAreLevels(side, LimitOf(type', price), levels, size, |takes| - 1); }
  }

  /** The specified answer. */
  function Answer(b: Book, id: nat, side: Side, type': OrderType, price: int, size: int): OrderResult {
    match Rejection(type', price, size)
    case Some(reason) => Rejected(reason)
    case None => Accepted(id, SyncFill(b, side, type', price, size))
  }

  function AnswerFills(b: Book, id: nat, side: Side, type': OrderType, price: int, size: int): seq<Fill> {
    if Rejection(type', price, size).Some? then [] else AsFills(id, SyncWalk(b, side, type', price, size).takes)
  }

  lemma PlaceAnswersSo(b: Book, id: nat, side: Side, type': OrderType, price: int, size: int)
    requires ValidBook(b)
    ensures PlaceAnswers(b, id, side, type', price, size,
                         Answer(b, id, side, type', price, size), AnswerFills(b, id, side, type', price, size))
  {
    if Rejection(type', price, size).None? {
      var levels := Counterside(b, side);
      GreedyIsExact(side, LimitOf(type', price), levels, size);
      AvailableIsCrossing(side, type', price, levels);
      FillsAreWithinLimit(b, id, side, type', price, size);
      FilledForTakes(id, SyncWalk(b, side, type', price, size).takes);
    }
  }

  lemma PlaceRestsSo(m: Matcher, b: Book, id: nat, side: Side, type': OrderType, price: int, size: int)
    requires ValidBook(b)
    ensures PlaceRests(m, Place(m, b, id, side, type', price, size), b, id, side, type', price, size,
                       Answer(b, id, side, type', price, size))
  {
    SizeAtIsMapLookup(side, OwnSide(b, side), price);
  }

  // ---------------------------------------------------------------- canceling

  /** A canceled order is gone, every other order is as it was, and exactly the levels with an
      order left stay tracked, at the sizes they had; an unknown id changes nothing. */
  ghost predicate CancelLeaves(m: Matcher, m': Matcher, id: nat, result: OrderResult) {
    && result == (if id in m.resting then Accepted(id, 0) else Rejected("order not found"))
    && id !in m'.resting && m'.resting == m.resting - {id}
    && (forall key :: key in m'.last <==> AnyRestingAt(m'.resting, key))
    && (forall key :: key in m'.last ==> key in m.last && m'.last[key] == m.last[key])
    && (id !in m.resting ==> m' == m)
  }

  lemma CancelLeavesSo(m: Matcher, id: nat)
    requires WellFormed(m)
    ensures CancelLeaves(m, Cancel(m, id), id, if id in m.resting then Accepted(id, 0) else Rejected("order not found"))
  {
    CancelKeepsWellFormed(m, id);
    assert id !in m.resting ==> m.resting - {id} == m.resting;
  }

  /** A canceled order is never filled again, whatever happens to the level, unless its id is
      placed anew. */
  lemma {:induction false} CanceledNeverFills(m: Matcher, id: nat, ops: seq<Op>)
    requires forall i :: 0 <= i < |ops| ==> !(ops[i].PlaceOp? && ops[i].id == id)
    ensures id !in RunOps(Cancel(m, id), ops).resting && RestingFills(Cancel(m, id), ops, id) == 0
    decreases |ops|
  {
    if ops != [] {
      var pre := ops[..|ops| - 1];
      CanceledNeverFills(m, id, pre);
      GoneStaysGone(RunOps(Cancel(m, id), pre), ops[|ops| - 1], id);
    }
  }
}
