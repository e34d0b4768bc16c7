/** What the book client's messages and snapshots come to, said of maps, deltas and snapshots
    alone. */
module BookMessages {
  import opened OrderBook
  import opened BookStream
  import opened Levels
  import opened BoundedMap
  import opened Checksum
  import opened BookClient

  // ---------------------------------------------------------------- snapshots

  /** The snapshot a reader of the slot finds after these events. */
  function LastSnapshot(events: seq<Event>): Snapshot {
    if events == [] then Snapshot(0, [], [])
    else if events[|events| - 1].SnapshotEvent? then events[|events| - 1].snapshot
    else LastSnapshot(events[..|events| - 1])
  }

  lemma {:induction false} LastSnapshotConcat(a: seq<Event>, b: seq<Event>)
    requires forall i :: 0 <= i < |b| ==> b[i].DeltaEvent?
    ensures LastSnapshot(a + b) == LastSnapshot(a)
    decreases |b|
  {
    if b == [] {
      assert a + b == a;
    } else {
      LastSnapshotConcat(a, b[..|b| - 1]);
      assert (a + b)[..|a + b| - 1] == a + b[..|b| - 1];
    }
  }

  /** An operation that does not publish leaves the last snapshot; publishing replaces it. */
  lemma StepLastSnapshot(o: Output, op: Op)
    ensures LastSnapshot(StepOp(o, op).events) ==
      if op.Publish? then Snapshot(o.engine.lastSeq, o.engine.bids, o.engine.asks) else LastSnapshot(o.events)
  {
    if op.Update? { LastSnapshotConcat(o.events, UpdateEvents(o.engine, op.side, op.price, op.qty)); }
  }

  /** The maps the book had after the last clear (or at the start), and the deltas since. */
  datatype Since = Since(base: Maps, ds: seq<Delta>)

  function SinceClear(e: Engine, ops: seq<Op>): Since {
    if ops == [] then Since(EngineMaps(e), [])
    else
      var pre, op := ops[..|ops| - 1], ops[|ops| - 1];
      var s := SinceClear(e, pre);
      if op.Clear? then Since(EMPTY, []) else s.(ds := s.ds + OpDeltas(After(e, pre), op))
  }

  /** With clears and all, the book is what the deltas since the last clear make of it. */
  lemma {:induction false} BookIsSinceClear(e: Engine, ops: seq<Op>)
    requires ValidEngine(e) && ValidOps(ops)
    ensures var s := SinceClear(e, ops); EngineMaps(After(e, ops)) == Replay(s.base, s.ds)
    decreases |ops|
  {
    if ops != [] {
      var pre, op := ops[..|ops| - 1], ops[|ops| - 1];
      BookIsSinceClear(e, pre);
      RunOpsKeepsValid(e, pre);
      assert ValidOp(op);
      var s := SinceClear(e, pre);
      ReplayConcat(s.base, s.ds, OpDeltas(After(e, pre), op));
      if op.Update? { UpdateMeaning(After(e, pre), op.side, op.price, op.qty); }
    }
  }

  /** The deltas since the last clear are the end of the stream. */
  lemma {:induction false} SinceClearEndsStream(e: Engine, ops: seq<Op>)
    ensures var ds, all := SinceClear(e, ops).ds, Emitted(e, ops);
      |ds| <= |all| && all[|all| - |ds|..] == ds
    decreases |ops|
  {
    if ops != [] {
      var pre, op := ops[..|ops| - 1], ops[|ops| - 1];
      SinceClearEndsStream(e, pre);
      EmittedGrows(e, ops);
      EndGrows(Emitted(e, pre), SinceClear(e, pre).ds, OpDeltas(After(e, pre), op));
    }
  }

  lemma EmittedGrows(e: Engine, ops: seq<Op>)
    requires ops != []
    ensures var pre := ops[..|ops| - 1]; Emitted(e, ops) == Emitted(e, pre) + OpDeltas(After(e, pre), ops[|ops| - 1])
  {
    StepOpDeltas(RunOps(Output(e, []), ops[..|ops| - 1]), ops[|ops| - 1]);
  }

  lemma EndGrows(all: seq<Delta>, ds: seq<Delta>, more: seq<Delta>)
    requires |ds| <= |all| && all[|all| - |ds|..] == ds
    ensures (all + more)[|all + more| - |ds + more|..] == ds + more
  {
  }

  ghost predicate PublishedAt(e: Engine, ops: seq<Op>, k: nat, i: nat, snapshot: Snapshot) {
    && k < |ops| && ops[k] == Publish
    && var s := SinceClear(e, ops[..k]);
       && snapshot.seqNo == e.lastSeq + |Emitted(e, ops[..k])|
       && MapsOf(snapshot.bids, snapshot.asks) == Replay(s.base, s.ds)
       && ValidSide(Bid, snapshot.bids) && ValidSide(Ask, snapshot.asks)
       && |RunOps(Output(e, []), ops[..k]).events| == i
  }

  lemma PublishAdds(e: Engine, ops: seq<Op>)
    requires ValidEngine(e) && ValidOps(ops) && ops != [] && ops[|ops| - 1] == Publish
    ensures var pre := ops[..|ops| - 1];
      var events, events' := RunOps(Output(e, []), pre).events, RunOps(Output(e, []), ops).events;
      && |events'| == |events| + 1 && events' [..|events|] == events
      && events'[|events|].SnapshotEvent?
      && PublishedAt(e, ops, |ops| - 1, |events|, events'[|events|].snapshot)
  {
    var pre := ops[..|ops| - 1];
    BookIsSinceClear(e, pre);
    RunOpsKeepsValid(e, pre);
    StreamIsGapFree(e, pre);
  }

  lemma PublishedBefore(e: Engine, ops: seq<Op>, k: nat, i: nat, snapshot: Snapshot)
    requires ops != [] && PublishedAt(e, ops[..|ops| - 1], k, i, snapshot)
    ensures PublishedAt(e, ops, k, i, snapshot)
  {
    assert ops[..|ops| - 1][..k] == ops[..k];
  }

  lemma EventsGrow(o: Output, op: Op)
    ensures o.events <= StepOp(o, op).events
    ensures op != Publish ==> forall i :: |o.events| <= i < |StepOp(o, op).events| ==> StepOp(o, op).events[i].DeltaEvent?
  {
  }

  /** Every snapshot in the output of any operations, clears included, carries the number of
      the last delta before it and holds, side by side, what the deltas since the last clear
      make of the book. */
  lemma {:induction false} EverySnapshotIsTheBook(e: Engine, ops: seq<Op>, i: nat)
    requires ValidEngine(e) && ValidOps(ops)
    requires i < |RunOps(Output(e, []), ops).events| && RunOps(Output(e, []), ops).events[i].SnapshotEvent?
    ensures exists k: nat :: PublishedAt(e, ops, k, i, RunOps(Output(e, []), ops).events[i].snapshot)
    decreases |ops|
  {
    var pre, op := ops[..|ops| - 1], ops[|ops| - 1];
    var before := RunOps(Output(e, []), pre);
    EventsGrow(before, op);
    if i < |before.events| {
      EverySnapshotIsTheBook(e, pre, i);
      var k: nat :| PublishedAt(e, pre, k, i, before.events[i].snapshot);
      PublishedBefore(e, ops, k, i, before.events[i].snapshot);
    } else {
      PublishAdds(e, ops);
    }
  }

  // ---------------------------------------------------------------- the levels of a message

  function AsEvents(ds: seq<Delta>): seq<Event> {
    seq(|ds|, i requires 0 <= i < |ds| => DeltaEvent(ds[i]))
  }

  /** The output grew by these deltas and nothing else, each counted. */
  ghost predicate Extended(o: Output, o': Output, ds: seq<Delta>) {
    && o'.events == o.events + AsEvents(ds) && Numbered(ds, o.engine.lastSeq)
    && o'.engine.lastSeq == o.engine.lastSeq + |ds| && o'.engine.sinceSnapshot == o.engine.sinceSnapshot + |ds|
  }

  lemma ExtendedTwice(o: Output, o1: Output, o2: Output, a: seq<Delta>, b: seq<Delta>)
    requires Extended(o, o1, a) && Extended(o1, o2, b)
    ensures Extended(o, o2, a + b)
  {
    assert o.events + AsEvents(a) + AsEvents(b) == o.events + AsEvents(a + b);
  }

  function WithLevels(m: Maps, side: Side, levels: seq<Level>): Maps {
    if side.Bid? then m.(bids := MapLevels(Bid, m.bids, levels)) else m.(asks := MapLevels(Ask, m.asks, levels))
  }

  lemma UpdateExtends(o: Output, side: Side, price: int, qty: int)
    ensures Extended(o, StepOp(o, Update(side, price, qty)), UpdateDeltas(o.engine, side, price, qty))
  {
    assert UpdateEvents(o.engine, side, price, qty) == AsEvents(UpdateDeltas(o.engine, side, price, qty));
  }

  lemma UpdateOnMaps(e: Engine, side: Side, price: int, qty: int)
    requires ValidEngine(e) && qty >= 0
    ensures var m, m' := EngineMaps(e), EngineMaps(AfterUpdate(e, side, price, qty));
      m' == if side.Bid? then m.(bids := MapUpdate(Bid, m.bids, price, qty)) else m.(asks := MapUpdate(Ask, m.asks, price, qty))
  {
    AfterDeltaIsMapUpdate(side, SideOf(e, side), price, qty);
  }

  lemma LevelOpsSnoc(side: Side, levels: seq<Level>)
    requires levels != []
    ensures var l := levels[|levels| - 1];
      LevelOps(side, levels) == LevelOps(side, levels[..|levels| - 1]) + [Update(side, l.price, l.qty)]
  {
  }

  /** One side's levels, in order. */
  ghost predicate LevelsDone(o: Output, o': Output, side: Side, levels: seq<Level>, ds: seq<Delta>) {
    && ValidEngine(o'.engine) && Extended(o, o', ds)
    && EngineMaps(o'.engine) == WithLevels(EngineMaps(o.engine), side, levels)
    && EngineMaps(o'.engine) == Replay(EngineMaps(o.engine), ds)
  }

  lemma LevelsDoneOnce(o: Output, mid: Output, side: Side, levels: seq<Level>, ds: seq<Delta>)
    requires levels != [] && LevelsDone(o, mid, side, levels[..|levels| - 1], ds) && levels[|levels| - 1].qty >= 0
    ensures var l := levels[|levels| - 1];
      LevelsDone(o, StepOp(mid, Update(side, l.price, l.qty)), side, levels, ds + UpdateDeltas(mid.engine, side, l.price, l.qty))
  {
    var l := levels[|levels| - 1];
    var more := UpdateDeltas(mid.engine, side, l.price, l.qty);
    UpdateExtends(mid, side, l.price, l.qty);
    ExtendedTwice(o, mid, StepOp(mid, Update(side, l.price, l.qty)), ds, more);
    UpdateMeaning(mid.engine, side, l.price, l.qty);
    UpdateOnMaps(mid.engine, side, l.price, l.qty);
    ReplayConcat(EngineMaps(o.engine), ds, more);
  }

  lemma {:induction false} LevelsRun(o: Output, side: Side, levels: seq<Level>) returns (ds: seq<Delta>)
    requires ValidEngine(o.engine) && ValidLevels(levels)
    ensures LevelsDone(o, RunOps(o, LevelOps(side, levels)), side, levels, ds)
    decreases |levels|
  {
    ds := [];
    if levels == [] {
      assert o.events + AsEvents([]) == o.events;
    } else {
      var pre, l := levels[..|levels| - 1], levels[|levels| - 1];
      ds := LevelsRun(o, side, pre);
      var mid := RunOps(o, LevelOps(side, pre));
      LevelOpsSnoc(side, levels);
      RunOpsSnoc(o, LevelOps(side, pre), Update(side, l.price, l.qty));
      LevelsDoneOnce(o, mid, side, levels, ds);
      ds := ds + UpdateDeltas(mid.engine, side, l.price, l.qty);
    }
  }

  // ---------------------------------------------------------------- a whole message

  /** What the message is applied to: nothing if it is a snapshot. */
  function Was(e: Engine, msg: Message): Maps {
    if msg.kind.SnapshotMessage? then EMPTY else EngineMaps(e)
  }

  /** Its bids and its asks in order, each side cut to its depth. */
  function MessageMaps(was: Maps, msg: Message): Maps {
    Maps(MapLevels(Bid, was.bids, msg.bids), MapLevels(Ask, was.asks, msg.asks))
  }

  /** The checksum of a book with these contents. */
  function ChecksumOfMaps(checksumOf: ChecksumOf, m: Maps): nat {
    checksumOf(Top(MapToLevels(Ask, m.asks)), Top(MapToLevels(Bid, m.bids)))
  }

  lemma SidesOfMaps(checksumOf: ChecksumOf, e: Engine)
    requires ValidEngine(e)
    ensures Computed(checksumOf, e) == ChecksumOfMaps(checksumOf, EngineMaps(e))
  {
    LevelsAreUnique(Ask, MapOf(e.asks), e.asks);
    LevelsAreUnique(Bid, MapOf(e.bids), e.bids);
  }

  /** The body of the message has been applied: the book holds its levels on top of what was
      there, and the deltas emitted say so. */
  ghost predicate BodyDone(o: Output, body: Output, msg: Message, ds: seq<Delta>) {
    var m := MessageMaps(Was(o.engine, msg), msg);
    ValidEngine(body.engine) && Extended(o, body, ds) && EngineMaps(body.engine) == m && Replay(Was(o.engine, msg), ds) == m
  }

  lemma BodyRun(o: Output, msg: Message) returns (ds: seq<Delta>)
    requires ValidEngine(o.engine) && ValidLevels(msg.bids) && ValidLevels(msg.asks)
    ensures BodyDone(o, RunOps(o, BodyOps(msg)), msg, ds)
  {
    var head := if msg.kind.SnapshotMessage? then [Clear] else [];
    var o0 := RunOps(o, head);
    if msg.kind.SnapshotMessage? { RunOpsOne(o, Clear); }
    assert ValidEngine(o0.engine) && EngineMaps(o0.engine) == Was(o.engine, msg);
    var a := LevelsRun(o0, Bid, msg.bids);
    var o1 := RunOps(o0, LevelOps(Bid, msg.bids));
    var b := LevelsRun(o1, Ask, msg.asks);
    RunOpsConcat(o, head, LevelOps(Bid, msg.bids));
    RunOpsConcat(o, head + LevelOps(Bid, msg.bids), LevelOps(Ask, msg.asks));
    ds := a + b;
    ExtendedTwice(o0, o1, RunOps(o1, LevelOps(Ask, msg.asks)), a, b);
    ReplayConcat(Was(o.engine, msg), a, b);
  }

  /** All that a message does, from what the book held before to what it holds after, the
      deltas and the snapshot it emits: kept with its levels applied if the checksum of the
      result is the message's, cleared if it is not; a snapshot goes out only if it is kept,
      and then for a snapshot message, after 500 deltas, or when it is time. */
  ghost predicate Handled(o: Output, o': Output, msg: Message, checksumOf: ChecksumOf, dueByTime: bool, ds: seq<Delta>) {
    var was := Was(o.engine, msg);
    var m := MessageMaps(was, msg);
    var kept := ChecksumOfMaps(checksumOf, m) == msg.checksum;
    var publishes := kept && (msg.kind.SnapshotMessage? || o.engine.sinceSnapshot + |ds| >= 500 || dueByTime);
    && Numbered(ds, o.engine.lastSeq) && o'.engine.lastSeq == o.engine.lastSeq + |ds|
    && Replay(was, ds) == m
    && (kept ==> EngineMaps(o'.engine) == m)
    && (!kept ==> o'.engine.bids == [] && o'.engine.asks == [])
    && o'.events == o.events + AsEvents(ds)
         + (if publishes then [SnapshotEvent(Snapshot(o'.engine.lastSeq, o'.engine.bids, o'.engine.asks))] else [])
    && o'.engine.sinceSnapshot == (if publishes then 0 else o.engine.sinceSnapshot + |ds|)
  }

  lemma MessageIsHandled(o: Output, msg: Message, checksumOf: ChecksumOf, dueByTime: bool) returns (ds: seq<Delta>)
    requires ValidEngine(o.engine) && ValidLevels(msg.bids) && ValidLevels(msg.asks)
    ensures Handled(o, ApplyMessage(o, msg, checksumOf, dueByTime), msg, checksumOf, dueByTime, ds)
  {
    ds := BodyRun(o, msg);
    var body := RunOps(o, BodyOps(msg));
    SidesOfMaps(checksumOf, body.engine);
    RunOpsOne(body, Clear);
    RunOpsOne(body, Publish);
    assert o.events + AsEvents(ds) + [] == o.events + AsEvents(ds);
  }
}
