/** The book client as the engine's code: two sides mutated in place, callbacks as events. */
module KrakenBookClientImpl {
  import opened OrderBook
  import opened BookStream
  import opened Checksum
  import opened BookClient
  import opened BookMessages

  class KrakenBookClient {
    const bids: OrderBookSide
    const asks: OrderBookSide
    var lastSeq: nat
    var deltasSinceSnapshot: nat
    var events: seq<Event>

    ghost predicate Valid()
      reads this, bids, asks
    {
      bids != asks && bids.side == Bid && asks.side == Ask && bids.Valid() && asks.Valid()
    }

    ghost function Out(): Output
      reads this, bids, asks
    {
      Output(Engine(bids.levels, asks.levels, lastSeq, deltasSinceSnapshot), events)
    }

    constructor ()
      ensures Valid() && Out() == Output(Engine([], [], 0, 0), []) && fresh(bids) && fresh(asks)
    {
      bids := new OrderBookSide(Bid);
      asks := new OrderBookSide(Ask);
      lastSeq, deltasSinceSnapshot, events := 0, 0, [];
    }

    method EmitDelta(side: Side, price: int, qty: int)
      modifies this
      ensures lastSeq == old(lastSeq) + 1 && deltasSinceSnapshot == old(deltasSinceSnapshot) + 1
      ensures events == old(events) + [DeltaEvent(Delta(lastSeq, side, price, qty))]
    {
      lastSeq := lastSeq + 1;
      deltasSinceSnapshot := deltasSinceSnapshot + 1;
      events := events + [DeltaEvent(Delta(lastSeq, side, price, qty))];
    }

    /** The delta, then a second one for the evicted price. */
    method EmitUpdate(side: Side, price: int, qty: int, evicted: Option<int>)
      modifies this
      ensures lastSeq == old(lastSeq) + (if evicted.Some? then 2 else 1)
      ensures deltasSinceSnapshot == old(deltasSinceSnapshot) + (if evicted.Some? then 2 else 1)
      ensures events == old(events) + EventsFor(old(lastSeq), side, price, qty, evicted)
    {
      EmitDelta(side, price, qty);
      if evicted.Some? {
        EmitDelta(side, evicted.value, 0);
      }
    }

    method ApplyLevel(book: OrderBookSide, price: int, qty: int)
      requires Valid() && (book == bids || book == asks) && qty >= 0
      modifies this, book
      ensures Valid()
      ensures Out() == StepOp(old(Out()), Update(book.side, price, qty))
    {
      var evicted := book.ApplyDelta(price, qty);
      EmitUpdate(book.side, price, qty, evicted);
    }

    method ApplyLevels(book: OrderBookSide, levels: seq<Level>)
      requires Valid() && (book == bids || book == asks) && ValidLevels(levels)
      modifies this, book
      ensures Valid()
      ensures Out() == RunOps(old(Out()), LevelOps(book.side, levels))
    {
      ghost var start, ops := Out(), LevelOps(book.side, levels);
      for i := 0 to |levels|
        invariant Valid()
        invariant Out() == RunOps(start, ops[..i])
      {
        ghost var before, op := ops[..i], ops[i];
        assert ops[..i + 1] == before + [op] by {
          assert ops[..i + 1] == ops[..i] + [ops[i]];
        }
        RunOpsSnoc(start, before, op);
        ApplyLevel(book, levels[i].price, levels[i].qty);
      }
      assert ops[..|levels|] == ops;
    }

    method ClearBook()
      requires Valid()
      modifies bids, asks
      ensures Valid() && Out() == StepOp(old(Out()), Clear)
    {
      bids.Clear();
      asks.Clear();
    }

    method PublishSnapshot()
      requires Valid()
      modifies this
      ensures Valid() && Out() == StepOp(old(Out()), Publish)
      ensures events == old(events) + [SnapshotEvent(Snapshot(lastSeq, bids.levels, asks.levels))]
      ensures lastSeq == old(lastSeq) && deltasSinceSnapshot == 0
    {
      events := events + [SnapshotEvent(Snapshot(lastSeq, bids.levels, asks.levels))];
      deltasSinceSnapshot := 0;
    }

    method ApplyBody(msg: Message)
      requires Valid() && ValidLevels(msg.bids) && ValidLevels(msg.asks)
      modifies this, bids, asks
      ensures Valid()
      ensures Out() == RunOps(old(Out()), BodyOps(msg))
    {
      ghost var start := Out();
      ghost var head := if msg.kind.SnapshotMessage? then [Clear] else [];
      if msg.kind.SnapshotMessage? {
        ClearBook();
        RunOpsSnoc(start, [], Clear);
        assert [] + [Clear] == [Clear];
      }
      RunOpsConcat(start, head, LevelOps(Bid, msg.bids));
      RunOpsConcat(start, head + LevelOps(Bid, msg.bids), LevelOps(Ask, msg.asks));
      ApplyLevels(bids, msg.bids);
      ApplyLevels(asks, msg.asks);
    }

    method ComputeChecksum(checksumOf: ChecksumOf) returns (computed: nat)
      requires Valid()
      ensures computed == Computed(checksumOf, Out().engine)
    {
      var bestAsks := asks.Depth(CHECKSUM_DEPTH);
      var bestBids := bids.Depth(CHECKSUM_DEPTH);
      assert bestAsks == Top(asks.levels) && bestBids == Top(bids.levels);
      return checksumOf(bestAsks, bestBids);
    }

    /** After the levels: clear on a mismatch, otherwise publish when a snapshot is due. */
    method Conclude(msg: Message, computed: nat, dueByTime: bool)
      requires Valid()
      modifies this, bids, asks
      ensures Valid()
      ensures Out() == RunOps(old(Out()), TailOps(msg, old(Out()).engine, computed, dueByTime))
    {
      RunOpsOne(Out(), Clear);
      RunOpsOne(Out(), Publish);
      if computed != msg.checksum {
        ClearBook();
      } else if msg.kind.SnapshotMessage? || deltasSinceSnapshot >= SNAPSHOT_DELTA_THRESHOLD || dueByTime {
        PublishSnapshot();
      }
    }

    /** One parsed message for this symbol. The checksum function and the elapsed-time
        test are the two things the client asks the outside world. */
    method HandleMessage(msg: Message, checksumOf: ChecksumOf, dueByTime: bool) returns (ghost ds: seq<Delta>)
      requires Valid() && ValidLevels(msg.bids) && ValidLevels(msg.asks)
      modifies this, bids, asks
      ensures Valid()
      ensures Out() == ApplyMessage(old(Out()), msg, checksumOf, dueByTime)
      ensures Handled(old(Out()), Out(), msg, checksumOf, dueByTime, ds)
    {
      ds := MessageIsHandled(Out(), msg, checksumOf, dueByTime);
      ApplyBody(msg);
      var computed := ComputeChecksum(checksumOf);
      Conclude(msg, computed, dueByTime);
    }
  }
}
