/** The engine's book client: applies exchange messages to the two bounded sides and emits
    a numbered delta stream and occasional snapshots. */
module BookClient {
  import opened OrderBook
  import opened BookStream
  import opened Checksum

  const SNAPSHOT_DELTA_THRESHOLD: nat := 500

  datatype Engine = Engine(bids: seq<Level>, asks: seq<Level>, lastSeq: nat, sinceSnapshot: nat)

  datatype Event = DeltaEvent(delta: Delta) | SnapshotEvent(snapshot: Snapshot)

  datatype Output = Output(engine: Engine, events: seq<Event>)

  /** What a message makes the engine do, one atomic operation at a time. */
  datatype Op = Update(side: Side, price: int, qty: int) | Clear | Publish

  datatype MessageKind = SnapshotMessage | UpdateMessage

  datatype Message = Message(kind: MessageKind, bids: seq<Level>, asks: seq<Level>, checksum: nat)

  ghost predicate ValidEngine(e: Engine) { ValidSide(Bid, e.bids) && ValidSide(Ask, e.asks) }

  ghost predicate ValidLevels(ls: seq<Level>) {
    forall i :: 0 <= i < |ls| ==> ls[i].qty >= 0
  }

  ghost predicate ValidOp(op: Op) { op.Update? ==> op.qty >= 0 }

  ghost predicate ValidOps(ops: seq<Op>) { forall i :: 0 <= i < |ops| ==> ValidOp(ops[i]) }

  function EngineMaps(e: Engine): Maps { MapsOf(e.bids, e.asks) }

  predicate IsEmpty(e: Engine) { e.bids == [] && e.asks == [] }

  // ---------------------------------------------------------------- one operation

  function SideOf(e: Engine, side: Side): seq<Level> { if side.Bid? then e.bids else e.asks }

  function WithSide(e: Engine, side: Side, ls: seq<Level>): Engine {
    if side.Bid? then e.(bids := ls) else e.(asks := ls)
  }

  /** The one or two deltas a level update emits: itself, then the eviction it caused. */
  function UpdateDeltas(e: Engine, side: Side, price: int, qty: int): seq<Delta> {
    DeltasFor(e.lastSeq, side, price, qty, AfterDelta(side, SideOf(e, side), price, qty).evicted)
  }

  function DeltasFor(lastSeq: nat, side: Side, price: int, qty: int, evicted: Option<int>): seq<Delta> {
    var first := Delta(lastSeq + 1, side, price, qty);
    match evicted
    case None => [first]
    case Some(p) => [first, Delta(lastSeq + 2, side, p, 0)]
  }

  function AfterUpdate(e: Engine, side: Side, price: int, qty: int): Engine {
    var n := |UpdateDeltas(e, side, price, qty)|;
    WithSide(e, side, AfterDelta(side, SideOf(e, side), price, qty).levels)
      .(lastSeq := e.lastSeq + n, sinceSnapshot := e.sinceSnapshot + n)
  }

  function EventsFor(lastSeq: nat, side: Side, price: int, qty: int, evicted: Option<int>): seq<Event> {
    var first := DeltaEvent(Delta(lastSeq + 1, side, price, qty));
    match evicted
    case None => [first]
    case Some(p) => [first] + [DeltaEvent(Delta(lastSeq + 2, side, p, 0))]
  }

  function UpdateEvents(e: Engine, side: Side, price: int, qty: int): seq<Event> {
    EventsFor(e.lastSeq, side, price, qty, AfterDelta(side, SideOf(e, side), price, qty).evicted)
  }

  function StepOp(o: Output, op: Op): Output {
    var e := o.engine;
    match op
    case Update(side, price, qty) =>
      Output(AfterUpdate(e, side, price, qty), o.events + UpdateEvents(e, side, price, qty))
    case Clear => Output(e.(bids := [], asks := []), o.events)
    case Publish => Output(e.(sinceSnapshot := 0), o.events + [SnapshotEvent(Snapshot(e.lastSeq, e.bids, e.asks))])
  }

  function RunOps(o: Output, ops: seq<Op>): Output {
    if ops == [] then o else StepOp(RunOps(o, ops[..|ops| - 1]), ops[|ops| - 1])
  }

  lemma RunOpsSnoc(o: Output, ops: seq<Op>, op: Op)
    ensures RunOps(o, ops + [op]) == StepOp(RunOps(o, ops), op)
  {
    assert (ops + [op])[..|ops + [op]| - 1] == ops;
  }

  lemma {:induction false} RunOpsConcat(o: Output, a: seq<Op>, b: seq<Op>)
    ensures RunOps(o, a + b) == RunOps(RunOps(o, a), b)
    decreases |b|
  {
    if b == [] {
      assert a + b == a;
    } else {
      RunOpsConcat(o, a, b[..|b| - 1]);
      assert (a + b)[..|a + b| - 1] == a + b[..|b| - 1];
    }
  }

  /** Replaying an update and its eviction changes one half of the copy, as on a map. */
  lemma ReplayUpdate(m: Maps, lastSeq: nat, side: Side, price: int, qty: int, evicted: Option<int>)
    ensures Replay(m, DeltasFor(lastSeq, side, price, qty, evicted)) ==
      match side
      case Bid => m.(bids := ApplyWithEviction(m.bids, price, qty, evicted))
      case Ask => m.(asks := ApplyWithEviction(m.asks, price, qty, evicted))
  {
    var first := Delta(lastSeq + 1, side, price, qty);
    ReplaySnoc(m, [], first);
    assert [] + [first] == [first];
    match evicted
    case None =>
    case Some(p) =>
      var second := Delta(lastSeq + 2, side, p, 0);
      ReplaySnoc(m, [first], second);
      assert [first] + [second] == [first, second];
  }

  lemma UpdateKeepsValid(e: Engine, side: Side, price: int, qty: int)
    requires ValidEngine(e) && qty >= 0
    ensures ValidEngine(AfterUpdate(e, side, price, qty))
  {
    AfterDeltaRefinesMap(side, SideOf(e, side), price, qty);
  }

  lemma UpdateMaps(e: Engine, side: Side, price: int, qty: int)
    requires ValidSide(side, SideOf(e, side)) && qty >= 0
    ensures EngineMaps(AfterUpdate(e, side, price, qty)) == Replay(EngineMaps(e), UpdateDeltas(e, side, price, qty))
  {
    AfterDeltaRefinesMap(side, SideOf(e, side), price, qty);
    ReplayUpdate(EngineMaps(e), e.lastSeq, side, price, qty, AfterDelta(side, SideOf(e, side), price, qty).evicted);
  }

  /** An update keeps the engine valid, and its deltas say all that happened to the book. */
  lemma UpdateMeaning(e: Engine, side: Side, price: int, qty: int)
    requires ValidEngine(e) && qty >= 0
    ensures ValidEngine(AfterUpdate(e, side, price, qty))
    ensures EngineMaps(AfterUpdate(e, side, price, qty)) == Replay(EngineMaps(e), UpdateDeltas(e, side, price, qty))
  {
    UpdateKeepsValid(e, side, price, qty);
    UpdateMaps(e, side, price, qty);
  }

  // ---------------------------------------------------------------- whole messages

  function LevelOps(side: Side, ls: seq<Level>): seq<Op> {
    seq(|ls|, i requires 0 <= i < |ls| => Update(side, ls[i].price, ls[i].qty))
  }

  /** The operations before the checksum is compared. */
  function BodyOps(msg: Message): seq<Op> {
    (if msg.kind.SnapshotMessage? then [Clear] else []) + LevelOps(Bid, msg.bids) + LevelOps(Ask, msg.asks)
  }

  /** A mismatch clears the book; otherwise a snapshot message always publishes and an
      update publishes when enough deltas or enough time went by. */
  function TailOps(msg: Message, e: Engine, computed: nat, dueByTime: bool): seq<Op> {
    if computed != msg.checksum then [Clear]
    else if msg.kind.SnapshotMessage? || e.sinceSnapshot >= SNAPSHOT_DELTA_THRESHOLD || dueByTime then [Publish]
    else []
  }

  /** The checksum is a function of the best asks and bids. */
  type ChecksumOf = (seq<Level>, seq<Level>) -> nat

  function Computed(checksumOf: ChecksumOf, e: Engine): nat { checksumOf(Top(e.asks), Top(e.bids)) }

  function ApplyMessage(o: Output, msg: Message, checksumOf: ChecksumOf, dueByTime: bool): Output {
    var body := RunOps(o, BodyOps(msg));
    RunOps(body, TailOps(msg, body.engine, Computed(checksumOf, body.engine), dueByTime))
  }

  // ---------------------------------------------------------------- the stream

  function DeltasOf(events: seq<Event>): seq<Delta> {
    if events == [] then []
    else
      DeltasOf(events[..|events| - 1])
      + (if events[|events| - 1].DeltaEvent? then [events[|events| - 1].delta] else [])
  }

  lemma {:induction false} DeltasOfConcat(a: seq<Event>, b: seq<Event>)
    ensures DeltasOf(a + b) == DeltasOf(a) + DeltasOf(b)
    decreases |b|
  {
    if b == [] {
      assert a + b == a;
    } else {
      DeltasOfConcat(a, b[..|b| - 1]);
      assert (a + b)[..|a + b| - 1] == a + b[..|b| - 1];
    }
  }

  lemma DeltasOfOne(event: Event)
    ensures DeltasOf([event]) == if event.DeltaEvent? then [event.delta] else []
  {
    assert [event][..0] == [];
  }

  /** Consecutive numbers, starting right after `from`. */
  ghost predicate Numbered(ds: seq<Delta>, from: nat) {
    forall i :: 0 <= i < |ds| ==> ds[i].seqNo == from + 1 + i
  }

  /** The deltas one operation adds to the stream. */
  function OpDeltas(e: Engine, op: Op): seq<Delta> {
    if op.Update? then UpdateDeltas(e, op.side, op.price, op.qty) else []
  }

  lemma UpdateEventsAreDeltas(e: Engine, side: Side, price: int, qty: int)
    ensures DeltasOf(UpdateEvents(e, side, price, qty)) == UpdateDeltas(e, side, price, qty)
  {
    var first := DeltaEvent(Delta(e.lastSeq + 1, side, price, qty));
    DeltasOfOne(first);
    match AfterDelta(side, SideOf(e, side), price, qty).evicted
    case None =>
    case Some(p) =>
      var second := DeltaEvent(Delta(e.lastSeq + 2, side, p, 0));
      DeltasOfOne(second);
      DeltasOfConcat([first], [second]);
  }

  lemma StepOpDeltas(o: Output, op: Op)
    ensures DeltasOf(StepOp(o, op).events) == DeltasOf(o.events) + OpDeltas(o.engine, op)
    ensures StepOp(o, op).engine.lastSeq == o.engine.lastSeq + |OpDeltas(o.engine, op)|
  {
    var e := o.engine;
    match op
    case Update(side, price, qty) =>
      UpdateEventsAreDeltas(e, side, price, qty);
      DeltasOfConcat(o.events, UpdateEvents(e, side, price, qty));
    case Clear =>
    case Publish =>
      var event := SnapshotEvent(Snapshot(e.lastSeq, e.bids, e.asks));
      DeltasOfOne(event);
      DeltasOfConcat(o.events, [event]);
  }

  function Emitted(e: Engine, ops: seq<Op>): seq<Delta> { DeltasOf(RunOps(Output(e, []), ops).events) }

  function After(e: Engine, ops: seq<Op>): Engine { RunOps(Output(e, []), ops).engine }

  /** Any operations: the emitted deltas carry consecutive numbers and end at lastSeq. */
  lemma {:induction false} StreamIsGapFree(e: Engine, ops: seq<Op>)
    ensures Numbered(Emitted(e, ops), e.lastSeq)
    ensures After(e, ops).lastSeq == e.lastSeq + |Emitted(e, ops)|
    decreases |ops|
  {
    if ops != [] {
      StreamIsGapFree(e, ops[..|ops| - 1]);
      StepOpDeltas(RunOps(Output(e, []), ops[..|ops| - 1]), ops[|ops| - 1]);
    }
  }

  lemma {:induction false} RunOpsKeepsValid(e: Engine, ops: seq<Op>)
    requires ValidEngine(e) && ValidOps(ops)
    ensures ValidEngine(After(e, ops))
    decreases |ops|
  {
    if ops != [] {
      RunOpsKeepsValid(e, ops[..|ops| - 1]);
      var op := ops[|ops| - 1];
      if op.Update? {
        UpdateMeaning(After(e, ops[..|ops| - 1]), op.side, op.price, op.qty);
      }
    }
  }

  /** Without a clear, replaying the emitted deltas over the maps of the old book gives
      the maps of the new one, evictions included. */
  lemma {:induction false} StreamIsComplete(e: Engine, ops: seq<Op>)
    requires ValidEngine(e) && ValidOps(ops) && Clear !in ops
    ensures EngineMaps(After(e, ops)) == Replay(EngineMaps(e), Emitted(e, ops))
    decreases |ops|
  {
    if ops != [] {
      var pre, op := ops[..|ops| - 1], ops[|ops| - 1];
      StreamIsComplete(e, pre);
      RunOpsKeepsValid(e, pre);
      var b := RunOps(Output(e, []), pre);
      StepOpDeltas(b, op);
      ReplayConcat(EngineMaps(e), DeltasOf(b.events), OpDeltas(b.engine, op));
      assert op != Clear && ValidOp(op);
      if op.Update? {
        UpdateMeaning(b.engine, op.side, op.price, op.qty);
      }
    }
  }

  lemma RunOpsOne(o: Output, op: Op)
    ensures RunOps(o, [op]) == StepOp(o, op)
  {
    RunOpsSnoc(o, [], op);
    assert [] + [op] == [op];
  }
}
