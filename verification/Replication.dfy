/** The book replication pipeline as a two-party step system. The writer (engine thread)
    updates its book, pushes deltas into the ring and publishes snapshots; the reader
    (backend poller) registers, pops, detects gaps and resyncs. A run is any interleaving.

    The ring appears as the queue it refines (module Channels): a push is accepted or
    dropped, and dropping may happen at any time. The snapshot slot appears as the last value
    completely written (module Seqlock). */
module Replication {
  import opened OrderBook
  import opened BookStream
  import opened BookClient
  import RingBuffer

  /** The engine's book, the deltas it still has to push, every delta it ever emitted, and
      the stream position of the last clear of a non-empty book. */
  datatype Writer = Writer(engine: Engine, outgoing: seq<Delta>, log: seq<Delta>, cut: nat)

  /** The snapshot slot, and the writer's `cut` when it was written. */
  datatype Slot = Slot(snapshot: Snapshot, cut: nat)

  /** The ring, the number last popped from it, the numbers it dropped, and the numbers the
      reader popped but threw away. */
  datatype Queue = Queue(items: seq<Delta>, lastPopped: nat, dropped: set<nat>, discarded: set<nat>)

  datatype Phase =
    | Unregistered
    | Polling
    | Resyncing
    | CatchingUp(next: nat, floor: nat)

  /** The reader's fields, the snapshot its mirror started from, and how often since then it
      caught up with a delta that was not the next one. */
  datatype Reader = Reader(
    phase: Phase, expected: nat, mirror: Maps, base: nat, baseMaps: Maps, baseCut: nat, jumps: nat)

  datatype Sys = Sys(w: Writer, slot: Slot, q: Queue, r: Reader)

  datatype Action =
    | UpdateLevel(side: Side, price: int, qty: nat)
    | ClearBook
    | PublishSnapshot
    | Push(drop: bool)
    | Register
    | Poll
    | ReadSnapshot
    | ReadFails
    | CatchUp

  function Init(): Sys {
    Sys(Writer(Engine([], [], 0, 0), [], [], 0), Slot(Snapshot(0, [], []), 0), Queue([], 0, {}, {}),
        Reader(Unregistered, 0, EMPTY, 0, EMPTY, 0, 0))
  }

  // ---------------------------------------------------------------- writer steps

  /** A level update: the book changes and its one or two deltas wait to be pushed. */
  function WriterUpdate(w: Writer, side: Side, price: int, qty: nat): Writer {
    var ds := UpdateDeltas(w.engine, side, price, qty);
    Writer(AfterUpdate(w.engine, side, price, qty), ds, w.log + ds, w.cut)
  }

  /** Clearing emits no delta. */
  function WriterClear(w: Writer): Writer {
    w.(engine := w.engine.(bids := [], asks := []), cut := if IsEmpty(w.engine) then w.cut else w.engine.lastSeq)
  }

  function Published(w: Writer): Slot {
    Slot(Snapshot(w.engine.lastSeq, w.engine.bids, w.engine.asks), w.cut)
  }

  function WriterPublish(w: Writer): Writer {
    w.(engine := w.engine.(sinceSnapshot := 0))
  }

  function Pushing(q: Queue, d: Delta, drop: bool): Queue {
    if drop || |q.items| >= RingBuffer.CAPACITY
    then q.(dropped := q.dropped + {d.seqNo})
    else q.(items := q.items + [d])
  }

  // ---------------------------------------------------------------- reader steps

  function Popped(q: Queue): Queue
    requires q.items != []
  {
    q.(items := q.items[1..], lastPopped := q.items[0].seqNo)
  }

  /** Replace the mirror by the snapshot and catch up from there. */
  function Rebuilt(r: Reader, slot: Slot): Reader {
    var maps := MapsOf(slot.snapshot.bids, slot.snapshot.asks);
    Reader(CatchingUp(slot.snapshot.seqNo + 1, slot.snapshot.seqNo), r.expected, maps,
           slot.snapshot.seqNo, maps, slot.cut, 0)
  }

  /** Resync: rebuild only if the snapshot is newer than what the mirror already has. */
  function Resynced(r: Reader, slot: Slot): Reader {
    if slot.snapshot.seqNo + 1 > r.expected then Rebuilt(r, slot)
    else r.(phase := CatchingUp(r.expected, if r.expected == 0 then 0 else r.expected - 1))
  }

  /** Pop one delta while polling: apply it, or throw it away and resync. */
  function StepPoll(s: Sys): Sys
    requires s.q.items != []
  {
    var d, q := s.q.items[0], Popped(s.q);
    if d.seqNo != s.r.expected
    then s.(q := q.(discarded := q.discarded + {d.seqNo}), r := s.r.(phase := Resyncing))
    else s.(q := q, r := s.r.(mirror := ApplyToMaps(s.r.mirror, d), expected := d.seqNo + 1))
  }

  /** One turn of the catch-up loop: skip what the snapshot covers, apply the rest, next in
      line or not. */
  function StepCatchUp(s: Sys): Sys
    requires s.r.phase.CatchingUp?
  {
    if s.q.items == [] then s.(r := s.r.(phase := Polling, expected := s.r.phase.next))
    else
      var d := s.q.items[0];
      if d.seqNo <= s.r.phase.floor then s.(q := Popped(s.q))
      else s.(q := Popped(s.q), r := s.r.(mirror := ApplyToMaps(s.r.mirror, d),
                                          phase := CatchingUp(d.seqNo + 1, s.r.phase.floor),
                                          jumps := s.r.jumps + if d.seqNo == s.r.phase.next then 0 else 1))
  }

  /** Steps that are not enabled leave the system alone; the book is touched and snapshots
      are published only when every delta of the last update has been pushed. */
  function Step(s: Sys, a: Action): Sys {
    match a
    case UpdateLevel(side, price, qty) =>
      if s.w.outgoing == [] then s.(w := WriterUpdate(s.w, side, price, qty)) else s
    case ClearBook => if s.w.outgoing == [] then s.(w := WriterClear(s.w)) else s
    case PublishSnapshot => if s.w.outgoing == [] then s.(w := WriterPublish(s.w), slot := Published(s.w)) else s
    case Push(drop) =>
      if s.w.outgoing != []
      then s.(w := s.w.(outgoing := s.w.outgoing[1..]), q := Pushing(s.q, s.w.outgoing[0], drop)) else s
    case Register => if s.r.phase.Unregistered? then s.(r := Rebuilt(s.r, s.slot)) else s
    case Poll => if s.r.phase.Polling? && s.q.items != [] then StepPoll(s) else s
    case ReadSnapshot => if s.r.phase.Resyncing? then s.(r := Resynced(s.r, s.slot)) else s
    case ReadFails => if s.r.phase.Resyncing? then s.(r := s.r.(phase := Polling)) else s
    case CatchUp => if s.r.phase.CatchingUp? then StepCatchUp(s) else s
  }

  function Run(s: Sys, actions: seq<Action>): Sys {
    if actions == [] then s else Step(Run(s, actions[..|actions| - 1]), actions[|actions| - 1])
  }

  lemma RunSnoc(s: Sys, actions: seq<Action>, a: Action)
    ensures Run(s, actions + [a]) == Step(Run(s, actions), a)
  {
    assert (actions + [a])[..|actions + [a]| - 1] == actions;
  }

  lemma RunOne(s: Sys, a: Action)
    ensures Run(s, [a]) == Step(s, a)
  {
    RunSnoc(s, [], a);
    assert [] + [a] == [a];
  }

  lemma {:induction false} RunConcat(s: Sys, a: seq<Action>, b: seq<Action>)
    ensures Run(s, a + b) == Run(Run(s, a), b)
    decreases |b|
  {
    if b == [] {
      assert a + b == a;
    } else {
      RunConcat(s, a, b[..|b| - 1]);
      assert (a + b)[..|a + b| - 1] == a + b[..|b| - 1];
    }
  }

  // ---------------------------------------------------------------- the invariant

  function Pushed(w: Writer): int { |w.log| - |w.outgoing| }

  function Missed(q: Queue): set<nat> { q.dropped + q.discarded }

  /** How far along the stream the mirror is. */
  function Upto(r: Reader): int {
    if r.phase.CatchingUp? then r.phase.next - 1 else r.expected - 1
  }

  /** The book a fresh copy would hold after the deltas numbered from+1 .. to. */
  function Stretch(log: seq<Delta>, from: nat, to: nat): Maps
    requires from <= to <= |log|
  {
    Replay(EMPTY, log[from..to])
  }

  ghost predicate WriterInv(w: Writer) {
    && ValidEngine(w.engine)
    && w.engine.lastSeq == |w.log|
    && Numbered(w.log, 0)
    && |w.outgoing| <= |w.log| && w.outgoing == w.log[Pushed(w)..]
    && w.cut <= |w.log|
    && EngineMaps(w.engine) == Stretch(w.log, w.cut, |w.log|)
  }

  /** A snapshot (or a mirror's baseline) numbered n, taken when the last clear was at c. */
  ghost predicate BaselineInv(maps: Maps, n: nat, c: nat, log: seq<Delta>, cut: nat) {
    && c <= cut && c <= n <= |log|
    && (c < cut ==> n <= cut)
    && maps == Stretch(log, c, n)
  }

  ghost predicate SlotInv(slot: Slot, w: Writer) {
    && slot.snapshot.seqNo <= Pushed(w)
    && BaselineInv(MapsOf(slot.snapshot.bids, slot.snapshot.asks), slot.snapshot.seqNo, slot.cut, w.log, w.cut)
  }

  ghost predicate InRing(items: seq<Delta>, n: nat) {
    exists i :: 0 <= i < |items| && items[i].seqNo == n
  }

  predicate Before(items: seq<Delta>, i: nat, j: nat) {
    i < j < |items| ==> items[i].seqNo < items[j].seqNo
  }

  ghost predicate Increasing(items: seq<Delta>) {
    forall i: nat, j: nat :: Before(items, i, j)
  }

  /** Everything pushed and not yet popped is queued or dropped; nothing else is queued. */
  ghost predicate QueueInv(q: Queue, log: seq<Delta>, pushed: int) {
    && q.lastPopped <= pushed <= |log|
    && Increasing(q.items)
    && (forall i :: 0 <= i < |q.items| ==> q.lastPopped < q.items[i].seqNo <= pushed)
    && (forall i :: 0 <= i < |q.items| ==> q.items[i].seqNo !in q.dropped)
    && (forall i :: 0 <= i < |q.items| && 0 < q.items[i].seqNo <= |log| ==> q.items[i] == log[q.items[i].seqNo - 1])
    && (forall n {:trigger InRing(q.items, n)} :: q.lastPopped < n <= pushed && n !in q.dropped ==> InRing(q.items, n))
    && (forall n :: n in q.dropped ==> n <= pushed)
    && (forall n :: n in q.discarded ==> n <= q.lastPopped)
  }

  ghost predicate NoneMissed(missed: set<nat>, from: int, to: int) {
    forall n :: n in missed ==> n <= from || n > to
  }

  /** The mirror is its baseline plus every later delta that was not lost, and none was lost
      on the way if and only if there was no jump. */
  ghost predicate MirrorInv(r: Reader, log: seq<Delta>, missed: set<nat>) {
    && r.base <= Upto(r) <= |log|
    && r.mirror == Replay(r.baseMaps, Kept(log[r.base..Upto(r)], missed))
    && (r.jumps == 0 <==> NoneMissed(missed, r.base, Upto(r)))
  }

  ghost predicate PhaseInv(r: Reader, q: Queue) {
    && (forall n :: Upto(r) < n <= q.lastPopped ==> n in Missed(q))
    && (r.phase.Polling? || r.phase.Resyncing? ==> forall i :: 0 <= i < |q.items| ==> q.items[i].seqNo > Upto(r))
    && (r.phase.CatchingUp? ==>
          && r.expected <= r.phase.next && r.phase.floor < r.phase.next
          && (r.phase.next - 1 <= r.phase.floor || r.phase.next - 1 <= q.lastPopped))
    && (r.phase.Resyncing? ==> q.lastPopped in q.discarded && q.lastPopped > Upto(r))
  }

  ghost predicate ReaderInv(s: Sys) {
    if s.r.phase.Unregistered? then s.q.lastPopped == 0 && s.q.discarded == {} && s.r.expected == 0
    else
      && Upto(s.r) <= Pushed(s.w)
      && BaselineInv(s.r.baseMaps, s.r.base, s.r.baseCut, s.w.log, s.w.cut)
      && MirrorInv(s.r, s.w.log, Missed(s.q))
      && PhaseInv(s.r, s.q)
  }

  ghost predicate Inv(s: Sys) {
    && WriterInv(s.w)
    && SlotInv(s.slot, s.w)
    && QueueInv(s.q, s.w.log, Pushed(s.w))
    && ReaderInv(s)
  }

  // ---------------------------------------------------------------- writer steps keep it

  lemma StretchGrows(log: seq<Delta>, ds: seq<Delta>, cut: nat)
    requires cut <= |log|
    ensures Stretch(log + ds, cut, |log + ds|) == Replay(Stretch(log, cut, |log|), ds)
  {
    ReplayConcat(EMPTY, log[cut..|log|], ds);
    assert (log + ds)[cut..|log + ds|] == log[cut..|log|] + ds;
  }

  lemma UpdateDeltasNumbered(e: Engine, side: Side, price: int, qty: nat)
    ensures Numbered(UpdateDeltas(e, side, price, qty), e.lastSeq)
    ensures AfterUpdate(e, side, price, qty).lastSeq == e.lastSeq + |UpdateDeltas(e, side, price, qty)|
  {
  }

  lemma UpdateKeepsWriter(w: Writer, side: Side, price: int, qty: nat)
    requires WriterInv(w) && w.outgoing == []
    ensures WriterInv(WriterUpdate(w, side, price, qty))
  {
    var ds := UpdateDeltas(w.engine, side, price, qty);
    UpdateMeaning(w.engine, side, price, qty);
    UpdateDeltasNumbered(w.engine, side, price, qty);
    StretchGrows(w.log, ds, w.cut);
    assert (w.log + ds)[|w.log|..] == ds;
  }

  lemma ClearKeepsWriter(w: Writer)
    requires WriterInv(w) && w.outgoing == []
    ensures WriterInv(WriterClear(w))
  {
    if !IsEmpty(w.engine) {
      assert w.log[|w.log|..|w.log|] == [];
    }
  }

  lemma PushKeepsWriter(w: Writer)
    requires WriterInv(w) && w.outgoing != []
    ensures WriterInv(w.(outgoing := w.outgoing[1..]))
    ensures w.outgoing[0] == w.log[Pushed(w)] && w.outgoing[0].seqNo == Pushed(w) + 1
  {
  }

  /** What a baseline stands for does not change when the stream grows. */
  lemma GrowKeepsBaseline(maps: Maps, n: nat, c: nat, log: seq<Delta>, more: seq<Delta>, cut: nat)
    requires BaselineInv(maps, n, c, log, cut)
    ensures BaselineInv(maps, n, c, log + more, cut)
  {
    assert (log + more)[c..n] == log[c..n];
  }

  lemma ClearKeepsBaseline(maps: Maps, n: nat, c: nat, log: seq<Delta>, cut: nat, cut': nat)
    requires BaselineInv(maps, n, c, log, cut) && (cut' == cut || cut' == |log|)
    requires cut <= |log|
    ensures BaselineInv(maps, n, c, log, cut')
  {
  }

  lemma PublishBaseline(w: Writer)
    requires WriterInv(w) && w.outgoing == []
    ensures WriterInv(WriterPublish(w)) && SlotInv(Published(w), WriterPublish(w))
  {
  }

  lemma GrowKeepsQueue(q: Queue, log: seq<Delta>, more: seq<Delta>, pushed: int)
    requires QueueInv(q, log, pushed)
    ensures QueueInv(q, log + more, pushed)
  {
  }

  lemma GrowKeepsMirror(r: Reader, log: seq<Delta>, more: seq<Delta>, missed: set<nat>)
    requires MirrorInv(r, log, missed)
    ensures MirrorInv(r, log + more, missed)
  {
    assert (log + more)[r.base..Upto(r)] == log[r.base..Upto(r)];
  }

  lemma UpdateKeepsInv(s: Sys, side: Side, price: int, qty: nat)
    requires Inv(s) && s.w.outgoing == []
    ensures Inv(s.(w := WriterUpdate(s.w, side, price, qty)))
  {
    var log, ds := s.w.log, UpdateDeltas(s.w.engine, side, price, qty);
    UpdateKeepsWriter(s.w, side, price, qty);
    GrowKeepsQueue(s.q, log, ds, Pushed(s.w));
    GrowKeepsBaseline(MapsOf(s.slot.snapshot.bids, s.slot.snapshot.asks), s.slot.snapshot.seqNo, s.slot.cut, log, ds, s.w.cut);
    if !s.r.phase.Unregistered? {
      GrowKeepsBaseline(s.r.baseMaps, s.r.base, s.r.baseCut, log, ds, s.w.cut);
      GrowKeepsMirror(s.r, log, ds, Missed(s.q));
    }
  }

  lemma ClearKeepsInv(s: Sys)
    requires Inv(s) && s.w.outgoing == []
    ensures Inv(s.(w := WriterClear(s.w)))
  {
    var w' := WriterClear(s.w);
    ClearKeepsWriter(s.w);
    ClearKeepsBaseline(MapsOf(s.slot.snapshot.bids, s.slot.snapshot.asks), s.slot.snapshot.seqNo, s.slot.cut,
                       s.w.log, s.w.cut, w'.cut);
    if !s.r.phase.Unregistered? {
      ClearKeepsBaseline(s.r.baseMaps, s.r.base, s.r.baseCut, s.w.log, s.w.cut, w'.cut);
    }
  }

  lemma InRingSnoc(items: seq<Delta>, d: Delta, n: nat)
    requires InRing(items, n) || d.seqNo == n
    ensures InRing(items + [d], n)
  {
    if InRing(items, n) {
      var i :| 0 <= i < |items| && items[i].seqNo == n;
      assert (items + [d])[i].seqNo == n;
    } else {
      assert (items + [d])[|items|].seqNo == n;
    }
  }

  lemma AcceptKeepsQueue(q: Queue, log: seq<Delta>, pushed: nat)
    requires QueueInv(q, log, pushed) && pushed < |log| && log[pushed].seqNo == pushed + 1
    ensures QueueInv(q.(items := q.items + [log[pushed]]), log, pushed + 1)
  {
    var d, q' := log[pushed], q.(items := q.items + [log[pushed]]);
    forall i: nat, j: nat ensures Before(q'.items, i, j) {
      assert Before(q.items, i, j);
    }
    forall n | q.lastPopped < n <= pushed + 1 && n !in q.dropped
      ensures InRing(q'.items, n)
    {
      InRingSnoc(q.items, d, n);
    }
  }

  lemma DropKeepsQueue(q: Queue, log: seq<Delta>, pushed: nat)
    requires QueueInv(q, log, pushed) && pushed < |log|
    ensures QueueInv(q.(dropped := q.dropped + {pushed + 1}), log, pushed + 1)
  {
  }

  /** Losing a delta that lies beyond the mirror does not change what the mirror is. */
  lemma LoseAhead(r: Reader, log: seq<Delta>, missed: set<nat>, n: nat)
    requires MirrorInv(r, log, missed) && Numbered(log, 0) && n > Upto(r)
    ensures MirrorInv(r, log, missed + {n})
  {
    var ds := log[r.base..Upto(r)];
    forall i | 0 <= i < |ds|
      ensures ds[i].seqNo != n
    {
      assert log[r.base + i].seqNo == r.base + i + 1;
    }
    KeptUnaffected(ds, missed, n);
  }

  lemma DropKeepsReader(s: Sys, n: nat)
    requires ReaderInv(s) && Numbered(s.w.log, 0) && n == Pushed(s.w) + 1 && s.w.outgoing != []
    ensures ReaderInv(s.(w := s.w.(outgoing := s.w.outgoing[1..]), q := s.q.(dropped := s.q.dropped + {n})))
  {
    if !s.r.phase.Unregistered? {
      LoseAhead(s.r, s.w.log, Missed(s.q), n);
      assert s.q.dropped + {n} + s.q.discarded == Missed(s.q) + {n};
    }
  }

  lemma AcceptKeepsReader(s: Sys, d: Delta)
    requires ReaderInv(s) && d.seqNo == Pushed(s.w) + 1 && s.w.outgoing != []
    ensures ReaderInv(s.(w := s.w.(outgoing := s.w.outgoing[1..]), q := s.q.(items := s.q.items + [d])))
  {
  }

  lemma PushKeepsSlot(slot: Slot, w: Writer)
    requires SlotInv(slot, w) && w.outgoing != []
    ensures SlotInv(slot, w.(outgoing := w.outgoing[1..]))
  {
  }

  lemma PushKeepsQueue(q: Queue, log: seq<Delta>, pushed: nat, drop: bool)
    requires QueueInv(q, log, pushed) && pushed < |log| && log[pushed].seqNo == pushed + 1
    ensures QueueInv(Pushing(q, log[pushed], drop), log, pushed + 1)
  {
    if drop || |q.items| >= RingBuffer.CAPACITY {
      DropKeepsQueue(q, log, pushed);
    } else {
      AcceptKeepsQueue(q, log, pushed);
    }
  }

  lemma PushKeepsReader(s: Sys, d: Delta, drop: bool)
    requires ReaderInv(s) && Numbered(s.w.log, 0) && d.seqNo == Pushed(s.w) + 1 && s.w.outgoing != []
    ensures ReaderInv(s.(w := s.w.(outgoing := s.w.outgoing[1..]), q := Pushing(s.q, d, drop)))
  {
    if drop || |s.q.items| >= RingBuffer.CAPACITY {
      DropKeepsReader(s, d.seqNo);
    } else {
      AcceptKeepsReader(s, d);
    }
  }

  lemma PushKeepsInv(s: Sys, drop: bool)
    requires Inv(s) && s.w.outgoing != []
    ensures Inv(s.(w := s.w.(outgoing := s.w.outgoing[1..]), q := Pushing(s.q, s.w.outgoing[0], drop)))
  {
    PushKeepsWriter(s.w);
    PushKeepsSlot(s.slot, s.w);
    PushKeepsQueue(s.q, s.w.log, Pushed(s.w), drop);
    PushKeepsReader(s, s.w.outgoing[0], drop);
  }

  // ---------------------------------------------------------------- reader steps keep it

  lemma RebuiltMirror(r: Reader, slot: Slot, log: seq<Delta>, missed: set<nat>)
    requires slot.snapshot.seqNo <= |log|
    ensures MirrorInv(Rebuilt(r, slot), log, missed)
  {
    assert log[slot.snapshot.seqNo..slot.snapshot.seqNo] == [];
  }

  lemma RebuildKeepsInv(s: Sys)
    requires Inv(s)
    requires s.r.phase.Unregistered? || (s.r.phase.Resyncing? && s.slot.snapshot.seqNo + 1 > s.r.expected)
    ensures Inv(s.(r := Rebuilt(s.r, s.slot)))
  {
    RebuiltMirror(s.r, s.slot, s.w.log, Missed(s.q));
  }

  lemma TailIncreases(items: seq<Delta>)
    requires Increasing(items) && items != []
    ensures Increasing(items[1..])
    ensures forall i :: 0 <= i < |items[1..]| ==> items[0].seqNo < items[1..][i].seqNo
  {
    forall i: nat, j: nat ensures Before(items[1..], i, j) {
      assert Before(items, i + 1, j + 1);
    }
    forall i | 0 <= i < |items[1..]| ensures items[0].seqNo < items[1..][i].seqNo {
      assert Before(items, 0, i + 1);
    }
  }

  lemma PopKeepsQueue(q: Queue, log: seq<Delta>, pushed: int)
    requires QueueInv(q, log, pushed) && q.items != []
    ensures QueueInv(Popped(q), log, pushed)
  {
    var rest := q.items[1..];
    TailIncreases(q.items);
    forall n | q.items[0].seqNo < n <= pushed && n !in q.dropped
      ensures InRing(rest, n)
    {
      assert InRing(q.items, n);
      var i :| 0 <= i < |q.items| && q.items[i].seqNo == n;
      assert rest[i - 1].seqNo == n;
    }
  }

  lemma NotBeforeTheFirst(items: seq<Delta>, n: nat)
    requires Increasing(items) && items != [] && n < items[0].seqNo
    ensures !InRing(items, n)
  {
    forall i: nat | i < |items|
      ensures items[i].seqNo > n
    {
      assert Before(items, 0, i);
    }
  }

  /** Everything between the mirror and the oldest queued delta is lost. */
  lemma GapIsMissed(q: Queue, log: seq<Delta>, pushed: int, upto: int)
    requires QueueInv(q, log, pushed) && q.items != []
    requires forall n :: upto < n <= q.lastPopped ==> n in Missed(q)
    ensures forall n :: 0 <= n && upto < n < q.items[0].seqNo ==> n in Missed(q)
    ensures q.items[0].seqNo !in Missed(q)
  {
    forall n | 0 <= n && upto < n < q.items[0].seqNo
      ensures n in Missed(q)
    {
      NotBeforeTheFirst(q.items, n);
      assert n > q.lastPopped ==> n in q.dropped;
    }
  }

  lemma GapNumbers(log: seq<Delta>, upto: nat, to: nat, missed: set<nat>, i: nat)
    requires Numbered(log, 0) && upto + i + 1 < to <= |log|
    requires forall n :: upto < n < to ==> n in missed
    ensures log[upto + i].seqNo in missed
  {
    var k := upto + i;
    assert log[k].seqNo == k + 1;
  }

  lemma SplitAtGap(log: seq<Delta>, from: nat, upto: nat, to: nat)
    requires from <= upto < to <= |log|
    ensures log[from..to] == log[from..upto] + log[upto..to - 1] + [log[to - 1]]
  {
  }

  lemma KeptOfGap(log: seq<Delta>, from: nat, upto: nat, to: nat, missed: set<nat>)
    requires Numbered(log, 0) && from <= upto < to <= |log| && to !in missed
    requires forall n :: upto < n < to ==> n in missed
    ensures Kept(log[from..to], missed) == Kept(log[from..upto], missed) + [log[to - 1]]
  {
    var near, gap, d := log[from..upto], log[upto..to - 1], log[to - 1];
    forall i | 0 <= i < |gap|
      ensures gap[i].seqNo in missed
    {
      GapNumbers(log, upto, to, missed, i);
    }
    KeptNone(gap, missed);
    SplitAtGap(log, from, upto, to);
    KeptConcat(near + gap, [d], missed);
    KeptConcat(near, gap, missed);
    KeptOne(d, missed);
  }

  lemma KeptOne(d: Delta, missed: set<nat>)
    requires d.seqNo !in missed
    ensures Kept([d], missed) == [d]
  {
    assert [d][..0] == [];
  }

  /** Applying the oldest queued delta moves the mirror up to it, skipping only lost deltas. */
  lemma ApplyAdvancesMirror(r: Reader, r': Reader, q: Queue, log: seq<Delta>, pushed: int)
    requires QueueInv(q, log, pushed) && q.items != [] && Numbered(log, 0)
    requires MirrorInv(r, log, Missed(q)) && q.items[0].seqNo > Upto(r)
    requires forall n :: Upto(r) < n <= q.lastPopped ==> n in Missed(q)
    requires r'.mirror == ApplyToMaps(r.mirror, q.items[0]) && Upto(r') == q.items[0].seqNo
    requires r'.base == r.base && r'.baseMaps == r.baseMaps
    requires r'.jumps == r.jumps + if q.items[0].seqNo == Upto(r) + 1 then 0 else 1
    ensures MirrorInv(r', log, Missed(q))
  {
    GapIsMissed(q, log, pushed, Upto(r));
    MirrorAdvances(r, r', q.items[0], log, Missed(q));
  }

  lemma MirrorAdvances(r: Reader, r': Reader, d: Delta, log: seq<Delta>, missed: set<nat>)
    requires MirrorInv(r, log, missed) && Numbered(log, 0)
    requires Upto(r) < d.seqNo <= |log| && d == log[d.seqNo - 1] && d.seqNo !in missed
    requires forall n: nat :: Upto(r) < n < d.seqNo ==> n in missed
    requires r'.mirror == ApplyToMaps(r.mirror, d) && Upto(r') == d.seqNo
    requires r'.base == r.base && r'.baseMaps == r.baseMaps
    requires r'.jumps == r.jumps + if d.seqNo == Upto(r) + 1 then 0 else 1
    ensures MirrorInv(r', log, missed)
  {
    KeptOfGap(log, r.base, Upto(r), d.seqNo, missed);
    ReplaySnoc(r.baseMaps, Kept(log[r.base..Upto(r)], missed), d);
    JumpsFollow(missed, r.base, Upto(r), d.seqNo);
  }

  /** Moving from u to n over lost numbers only. */
  lemma JumpsFollow(missed: set<nat>, base: nat, u: nat, n: nat)
    requires base <= u < n && n !in missed
    requires forall k: nat :: u < k < n ==> k in missed
    ensures NoneMissed(missed, base, n) <==> NoneMissed(missed, base, u) && n == u + 1
  {
    if n > u + 1 { assert u + 1 in missed; }
  }

  lemma DiscardKeepsQueue(q: Queue, log: seq<Delta>, pushed: int)
    requires QueueInv(q, log, pushed)
    ensures QueueInv(q.(discarded := q.discarded + {q.lastPopped}), log, pushed)
  {
  }

  function Discarding(q: Queue): Queue
    requires q.items != []
  {
    Popped(q).(discarded := q.discarded + {q.items[0].seqNo})
  }

  lemma GapPollKeepsInv(s: Sys)
    requires Inv(s) && s.r.phase.Polling? && s.q.items != [] && s.q.items[0].seqNo != s.r.expected
    ensures Inv(StepPoll(s))
  {
    PopKeepsQueue(s.q, s.w.log, Pushed(s.w));
    DiscardKeepsQueue(Popped(s.q), s.w.log, Pushed(s.w));
    GapIsMissed(s.q, s.w.log, Pushed(s.w), Upto(s.r));
    GapPollKeepsMirror(s.r, s.q, s.w.log);
    GapPollKeepsPhase(s.r, s.q);
  }

  lemma GapPollKeepsMirror(r: Reader, q: Queue, log: seq<Delta>)
    requires MirrorInv(r, log, Missed(q)) && Numbered(log, 0) && r.phase.Polling?
    requires q.items != [] && q.items[0].seqNo > Upto(r)
    ensures MirrorInv(r.(phase := Resyncing), log, Missed(Discarding(q)))
  {
    LoseAhead(r, log, Missed(q), q.items[0].seqNo);
    MissedDiscarding(q);
    SameMirror(r, r.(phase := Resyncing), log, Missed(Discarding(q)));
  }

  lemma MissedDiscarding(q: Queue)
    requires q.items != []
    ensures Missed(Discarding(q)) == Missed(q) + {q.items[0].seqNo}
  {
  }

  lemma SameMirror(r: Reader, r': Reader, log: seq<Delta>, missed: set<nat>)
    requires MirrorInv(r, log, missed) && Upto(r') == Upto(r)
    requires r'.mirror == r.mirror && r'.base == r.base && r'.baseMaps == r.baseMaps && r'.jumps == r.jumps
    ensures MirrorInv(r', log, missed)
  {
  }

  lemma GapPollKeepsPhase(r: Reader, q: Queue)
    requires PhaseInv(r, q) && r.phase.Polling? && q.items != [] && 0 <= Upto(r) < q.items[0].seqNo
    requires forall n: nat :: Upto(r) < n < q.items[0].seqNo ==> n in Missed(q)
    ensures PhaseInv(r.(phase := Resyncing), Discarding(q))
  {
    forall n: nat | Upto(r) < n <= q.items[0].seqNo
      ensures n in Missed(Discarding(q))
    {
      assert n < q.items[0].seqNo ==> n in Missed(q);
    }
  }

  lemma NextPollKeepsInv(s: Sys)
    requires Inv(s) && s.r.phase.Polling? && s.q.items != [] && s.q.items[0].seqNo == s.r.expected
    ensures Inv(StepPoll(s))
  {
    PopKeepsQueue(s.q, s.w.log, Pushed(s.w));
    ApplyAdvancesMirror(s.r, StepPoll(s).r, s.q, s.w.log, Pushed(s.w));
  }

  lemma PollKeepsInv(s: Sys)
    requires Inv(s) && s.r.phase.Polling? && s.q.items != []
    ensures Inv(StepPoll(s))
  {
    if s.q.items[0].seqNo != s.r.expected {
      GapPollKeepsInv(s);
    } else {
      NextPollKeepsInv(s);
    }
  }

  /** The snapshot is not newer: catch up from where the mirror is. */
  lemma StayPut(r: Reader, slot: Slot, q: Queue, log: seq<Delta>)
    requires MirrorInv(r, log, Missed(q)) && PhaseInv(r, q) && r.phase.Resyncing?
    requires slot.snapshot.seqNo + 1 <= r.expected
    ensures MirrorInv(Resynced(r, slot), log, Missed(q)) && PhaseInv(Resynced(r, slot), q)
    ensures Upto(Resynced(r, slot)) == Upto(r)
  {
  }

  lemma StayPutReader(s: Sys)
    requires ReaderInv(s) && s.r.phase.Resyncing? && s.slot.snapshot.seqNo + 1 <= s.r.expected
    ensures ReaderInv(s.(r := Resynced(s.r, s.slot)))
  {
    StayPut(s.r, s.slot, s.q, s.w.log);
  }

  lemma ReadKeepsInv(s: Sys)
    requires Inv(s) && s.r.phase.Resyncing?
    ensures Inv(s.(r := Resynced(s.r, s.slot)))
  {
    if s.slot.snapshot.seqNo + 1 > s.r.expected {
      RebuildKeepsInv(s);
    } else {
      StayPutReader(s);
    }
  }

  function CaughtUp(r: Reader): Reader
    requires r.phase.CatchingUp?
  {
    r.(phase := Polling, expected := r.phase.next)
  }

  lemma CaughtUpMirror(r: Reader, log: seq<Delta>, missed: set<nat>)
    requires MirrorInv(r, log, missed) && r.phase.CatchingUp?
    ensures MirrorInv(CaughtUp(r), log, missed) && Upto(CaughtUp(r)) == Upto(r)
  {
  }

  lemma CaughtUpPhase(r: Reader, q: Queue)
    requires PhaseInv(r, q) && r.phase.CatchingUp? && q.items == []
    ensures PhaseInv(CaughtUp(r), q)
  {
  }

  lemma CatchUpEndsReader(s: Sys)
    requires ReaderInv(s) && s.r.phase.CatchingUp? && s.q.items == []
    ensures ReaderInv(s.(r := CaughtUp(s.r)))
  {
    CaughtUpMirror(s.r, s.w.log, Missed(s.q));
    CaughtUpPhase(s.r, s.q);
  }

  lemma CatchUpEnds(s: Sys)
    requires Inv(s) && s.r.phase.CatchingUp? && s.q.items == []
    ensures Inv(s.(r := CaughtUp(s.r)))
  {
    CatchUpEndsReader(s);
  }

  lemma CatchUpSkips(s: Sys)
    requires Inv(s) && s.r.phase.CatchingUp? && s.q.items != [] && s.q.items[0].seqNo <= s.r.phase.floor
    ensures Inv(s.(q := Popped(s.q)))
  {
    PopKeepsQueue(s.q, s.w.log, Pushed(s.w));
    GapIsMissed(s.q, s.w.log, Pushed(s.w), Upto(s.r));
  }

  lemma CatchUpApplies(s: Sys)
    requires Inv(s) && s.r.phase.CatchingUp? && s.q.items != [] && s.q.items[0].seqNo > s.r.phase.floor
    ensures Inv(StepCatchUp(s))
  {
    PopKeepsQueue(s.q, s.w.log, Pushed(s.w));
    ApplyAdvancesMirror(s.r, StepCatchUp(s).r, s.q, s.w.log, Pushed(s.w));
  }

  lemma CatchUpKeepsInv(s: Sys)
    requires Inv(s) && s.r.phase.CatchingUp?
    ensures Inv(StepCatchUp(s))
  {
    if s.q.items == [] {
      CatchUpEnds(s);
    } else if s.q.items[0].seqNo <= s.r.phase.floor {
      CatchUpSkips(s);
    } else {
      CatchUpApplies(s);
    }
  }

  lemma PublishKeepsInv(s: Sys)
    requires Inv(s) && s.w.outgoing == []
    ensures Inv(s.(w := WriterPublish(s.w), slot := Published(s.w)))
  {
    PublishBaseline(s.w);
  }

  lemma FailKeepsInv(s: Sys)
    requires Inv(s) && s.r.phase.Resyncing?
    ensures Inv(s.(r := s.r.(phase := Polling)))
  {
  }

  lemma StepKeepsInv(s: Sys, a: Action)
    requires Inv(s)
    ensures Inv(Step(s, a))
  {
    match a
    case UpdateLevel(side, price, qty) => if s.w.outgoing == [] { UpdateKeepsInv(s, side, price, qty); }
    case ClearBook => if s.w.outgoing == [] { ClearKeepsInv(s); }
    case PublishSnapshot => if s.w.outgoing == [] { PublishKeepsInv(s); }
    case Push(drop) => if s.w.outgoing != [] { PushKeepsInv(s, drop); }
    case Register => if s.r.phase.Unregistered? { RebuildKeepsInv(s); }
    case Poll => if s.r.phase.Polling? && s.q.items != [] { PollKeepsInv(s); }
    case ReadSnapshot => if s.r.phase.Resyncing? { ReadKeepsInv(s); }
    case ReadFails => if s.r.phase.Resyncing? { FailKeepsInv(s); }
    case CatchUp => if s.r.phase.CatchingUp? { CatchUpKeepsInv(s); }
  }

  lemma {:induction false} RunKeepsInv(actions: seq<Action>)
    ensures Inv(Run(Init(), actions))
    decreases |actions|
  {
    if actions != [] {
      RunKeepsInv(actions[..|actions| - 1]);
      StepKeepsInv(Run(Init(), actions[..|actions| - 1]), actions[|actions| - 1]);
    }
  }
}
