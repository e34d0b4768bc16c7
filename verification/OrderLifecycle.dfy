/** From the matching engine's fills to the status the backend stores. */
module OrderLifecycle {
  import opened OrderBook
  import opened Walk
  import Matching
  import MatchingRuns
  import OrderTable

  /** What the router stores as the quantity it expects to see filled. */
  function ExpectedFill(type': Matching.OrderType, size: int, filledAtOnce: int): int {
    if type'.Market? then filledAtOnce else size
  }

  /** The row of an order just accepted with this expectation. */
  predicate JustAccepted(t: OrderTable.Table, row: nat, engineId: nat, expected: int) {
    && row in t.rows && t.rows[row].status.Open? && t.rows[row].engineId == Some(engineId)
    && t.rows[row].expected == expected && OrderTable.TotalFor(t.fills, row) == 0
  }

  /** A stored row of an order of this size of which `left` remains in the engine. */
  predicate Mirrors(r: OrderTable.Row, id: nat, size: int, left: int) {
    && (r.status.FilledUp? <==> left == 0)
    && (r.status.Open? <==> left == size)
    && (r.status.PartiallyFilled? <==> 0 < left < size)
    && r.engineId == (if left == 0 then None else Some(id))
  }

  lemma StatusFromTotal(t: OrderTable.Table, row: nat, recording: seq<OrderTable.Op>, id: nat, size: int, left: int)
    requires OrderTable.IdInv(t) && JustAccepted(t, row, id, size) && size > 0
    requires OrderTable.SafeRun(t, recording) && OrderTable.PositiveFills(recording, id)
    requires OrderTable.LeavesAlone(recording, row, id)
    requires 0 <= left <= size && OrderTable.FillsFor(recording, id) == size - left
    ensures row in OrderTable.Run(t, recording).rows
    ensures Mirrors(OrderTable.Run(t, recording).rows[row], id, size, left)
  {
    OrderTable.FilledOnLastFill(t, recording, row, id);
  }

  /** A limit order: however its matching run and its recording run go (no cancel, no
      restart), once every fill emitted so far is recorded, the stored status is filled
      exactly when nothing remains in the engine, open exactly when nothing has filled, and
      the engine id is kept exactly while something remains. */
  lemma LimitStatusMirrorsEngine(
      m: Matching.Matcher, b: Matching.Book, id: nat, side: Side, price: int, size: int, ops: seq<MatchingRuns.Op>,
      t: OrderTable.Table, row: nat, recording: seq<OrderTable.Op>)
    requires Matching.WellFormed(m) && Matching.ValidBook(b) && id !in m.resting
    requires Matching.Rejection(Matching.Limit, price, size).None?
    requires MatchingRuns.ValidRun(Matching.Place(m, b, id, side, Matching.Limit, price, size), ops)
    requires MatchingRuns.LeavesAlone(ops, id)
    requires OrderTable.IdInv(t) && JustAccepted(t, row, id, ExpectedFill(Matching.Limit, size, 0))
    requires OrderTable.SafeRun(t, recording) && OrderTable.PositiveFills(recording, id)
    requires OrderTable.LeavesAlone(recording, row, id)
    requires OrderTable.FillsFor(recording, id) ==
      Matching.SyncFill(b, side, Matching.Limit, price, size)
      + MatchingRuns.RestingFills(Matching.Place(m, b, id, side, Matching.Limit, price, size), ops, id)
    ensures row in OrderTable.Run(t, recording).rows
    ensures Mirrors(OrderTable.Run(t, recording).rows[row], id, size, MatchingRuns.RemainingOf(
      MatchingRuns.RunOps(Matching.Place(m, b, id, side, Matching.Limit, price, size), ops), id))
  {
    var after := MatchingRuns.RunOps(Matching.Place(m, b, id, side, Matching.Limit, price, size), ops);
    MatchingRuns.FillsAreConserved(m, b, id, side, price, size, ops);
    LeftIsNonNegative(m, b, id, side, price, size, ops);
    StatusFromTotal(t, row, recording, id, size, MatchingRuns.RemainingOf(after, id));
  }

  lemma LeftIsNonNegative(
      m: Matching.Matcher, b: Matching.Book, id: nat, side: Side, price: int, size: int, ops: seq<MatchingRuns.Op>)
    requires Matching.WellFormed(m) && Matching.ValidBook(b) && id !in m.resting
    requires MatchingRuns.ValidRun(Matching.Place(m, b, id, side, Matching.Limit, price, size), ops)
    ensures MatchingRuns.RemainingOf(
      MatchingRuns.RunOps(Matching.Place(m, b, id, side, Matching.Limit, price, size), ops), id) >= 0
  {
    Matching.PlaceKeepsWellFormed(m, b, id, side, Matching.Limit, price, size);
    MatchingRuns.RunKeepsWellFormed(Matching.Place(m, b, id, side, Matching.Limit, price, size), ops);
  }

  /** A market order never rests: all it will ever fill is known at once, so it is unfilled
      from the start or filled exactly when its last synchronous fill is recorded. */
  lemma MarketStatus(
      m: Matching.Matcher, b: Matching.Book, id: nat, side: Side, price: int, size: int,
      t: OrderTable.Table, row: nat, recording: seq<OrderTable.Op>)
    requires Matching.ValidBook(b) && id !in m.resting && size > 0
    requires OrderTable.IdInv(t) && row in t.rows && OrderTable.EngineIdFree(t, id)
    requires OrderTable.TotalFor(t.fills, row) == 0
    requires var t' := OrderTable.MarkAccepted(t, row, id,
               ExpectedFill(Matching.Market, size, Matching.SyncFill(b, side, Matching.Market, price, size)));
      && OrderTable.SafeRun(t', recording) && OrderTable.PositiveFills(recording, id)
      && OrderTable.LeavesAlone(recording, row, id)
      && OrderTable.FillsFor(recording, id) <= Matching.SyncFill(b, side, Matching.Market, price, size)
    ensures var filled := Matching.SyncFill(b, side, Matching.Market, price, size);
      var t' := OrderTable.MarkAccepted(t, row, id, ExpectedFill(Matching.Market, size, filled));
      && Matching.Place(m, b, id, side, Matching.Market, price, size) == m
      && (filled == 0 ==> t'.rows[row].status.Unfilled? && t'.rows[row].engineId == None)
      && (filled > 0 ==> row in OrderTable.Run(t', recording).rows)
      && (filled > 0 ==>
            (OrderTable.Run(t', recording).rows[row].status.FilledUp? <==>
             OrderTable.FillsFor(recording, id) == filled))
  {
    var filled := Matching.SyncFill(b, side, Matching.Market, price, size);
    GreedyIsExact(side, None, Matching.BookSideOf(b, Opposite(side)), size);
    OrderTable.SafeStepKeepsIds(t, OrderTable.Accept(row, id, filled));
    var t' := OrderTable.MarkAccepted(t, row, id, filled);
    if filled > 0 {
      OrderTable.FilledOnLastFill(t', recording, row, id);
    }
  }
}
