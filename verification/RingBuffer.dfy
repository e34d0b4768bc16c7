/** The single-producer single-consumer delta ring. Push and pop are split into their
    atomic loads, slot access and index store; a run is any interleaving of those steps. */
module RingBuffer {

  const CAPACITY: nat := 4096
  const INDEX_MOD: nat := 0x1_0000_0000_0000_0000

  datatype Producer<T> =
    | Idle
    | WriteLoaded(item: T, w: nat)
    | BothLoaded(item: T, w: nat, r: nat)
    | SlotWritten(item: T, w: nat)

  datatype Consumer<T> =
    | Waiting
    | ReadLoaded(r: nat)
    | PairLoaded(r: nat, w: nat)
    | SlotRead(r: nat, item: T)

  /** The shared words, the two program counters, and the history of the run:
      accepted and popped items, push attempts, drops, and how many items had been popped
      (accepted) when the producer (consumer) last loaded the other side's index. */
  datatype Ring<T> = Ring(
    writeIndex: nat, readIndex: nat, droppedCount: nat, slots: seq<T>,
    producer: Producer<T>, consumer: Consumer<T>,
    accepted: seq<T>, popped: seq<T>, attempts: nat, drops: nat,
    seenPopped: nat, seenAccepted: nat)

  datatype Action<T> = StartPush(item: T) | StepPush | StartPop | StepPop

  function Init<T>(slots: seq<T>): Ring<T> {
    Ring(0, 0, 0, slots, Idle, Waiting, [], [], 0, 0, 0, 0)
  }

  function Advance(index: nat): nat { (index + 1) % INDEX_MOD }

  function SlotOf(index: nat): (k: nat)
    ensures k < CAPACITY
  {
    index % CAPACITY
  }

  function Occupied(w: nat, r: nat): nat { (w - r) % INDEX_MOD }

  function ProducerStep<T>(s: Ring<T>): Ring<T>
    requires |s.slots| == CAPACITY
  {
    match s.producer
    case Idle => s
    case WriteLoaded(item, w) => s.(producer := BothLoaded(item, w, s.readIndex), seenPopped := |s.popped|)
    case BothLoaded(item, w, r) =>
      if Occupied(w, r) >= CAPACITY
      then s.(producer := Idle, droppedCount := Advance(s.droppedCount), drops := s.drops + 1)
      else s.(producer := SlotWritten(item, w), slots := s.slots[w % CAPACITY := item])
    case SlotWritten(item, w) =>
      s.(producer := Idle, writeIndex := Advance(w), accepted := s.accepted + [item])
  }

  function ConsumerStep<T>(s: Ring<T>): Ring<T>
    requires |s.slots| == CAPACITY
  {
    match s.consumer
    case Waiting => s
    case ReadLoaded(r) => s.(consumer := PairLoaded(r, s.writeIndex), seenAccepted := |s.accepted|)
    case PairLoaded(r, w) =>
      if r == w then s.(consumer := Waiting) else s.(consumer := SlotRead(r, s.slots[r % CAPACITY]))
    case SlotRead(r, item) =>
      s.(consumer := Waiting, readIndex := Advance(r), popped := s.popped + [item])
  }

  function Step<T>(s: Ring<T>, a: Action<T>): Ring<T>
    requires |s.slots| == CAPACITY
  {
    match a
    case StartPush(item) =>
      if s.producer.Idle? then s.(producer := WriteLoaded(item, s.writeIndex), attempts := s.attempts + 1) else s
    case StepPush => ProducerStep(s)
    case StartPop => if s.consumer.Waiting? then s.(consumer := ReadLoaded(s.readIndex)) else s
    case StepPop => ConsumerStep(s)
  }

  function Run<T>(s: Ring<T>, actions: seq<Action<T>>): (s': Ring<T>)
    requires |s.slots| == CAPACITY
    ensures |s'.slots| == CAPACITY
  {
    if actions == [] then s else Step(Run(s, actions[..|actions| - 1]), actions[|actions| - 1])
  }

  // ---------------------------------------------------------------- the invariant

  ghost predicate Counters<T>(s: Ring<T>) {
    && |s.slots| == CAPACITY
    && s.writeIndex == |s.accepted| % INDEX_MOD
    && s.readIndex == |s.popped| % INDEX_MOD
    && s.droppedCount == s.drops % INDEX_MOD
    && s.attempts == |s.accepted| + s.drops + (if s.producer.Idle? then 0 else 1)
    && |s.popped| <= |s.accepted| <= |s.popped| + CAPACITY
  }

  ghost predicate Contents<T>(s: Ring<T>)
    requires Counters(s)
  {
    && s.popped == s.accepted[..|s.popped|]
    && forall i :: |s.popped| <= i < |s.accepted| ==> s.slots[i % CAPACITY] == s.accepted[i]
  }

  ghost predicate ProducerInv<T>(s: Ring<T>)
    requires Counters(s)
  {
    match s.producer
    case Idle => true
    case WriteLoaded(_, w) => w == s.writeIndex
    case BothLoaded(_, w, r) =>
      && w == s.writeIndex && r == s.seenPopped % INDEX_MOD
      && s.seenPopped <= |s.popped| && |s.accepted| <= s.seenPopped + CAPACITY
    case SlotWritten(item, w) =>
      && w == s.writeIndex && |s.accepted| < |s.popped| + CAPACITY
      && s.slots[|s.accepted| % CAPACITY] == item
  }

  ghost predicate ConsumerInv<T>(s: Ring<T>)
    requires Counters(s)
  {
    match s.consumer
    case Waiting => true
    case ReadLoaded(r) => r == s.readIndex
    case PairLoaded(r, w) =>
      && r == s.readIndex && w == s.seenAccepted % INDEX_MOD
      && |s.popped| <= s.seenAccepted <= |s.accepted|
    case SlotRead(r, item) =>
      r == s.readIndex && |s.popped| < |s.accepted| && item == s.accepted[|s.popped|]
  }

  ghost predicate Inv<T>(s: Ring<T>) {
    Counters(s) && Contents(s) && ProducerInv(s) && ConsumerInv(s)
  }

  // ---------------------------------------------------------------- index arithmetic

  lemma SlotOfIndex(n: nat)
    ensures (n % INDEX_MOD) % CAPACITY == n % CAPACITY
  {
    var q := n / INDEX_MOD;
    assert n == n % INDEX_MOD + CAPACITY * (q * 0x10_0000_0000_0000);
    ModAdd(n % INDEX_MOD, q * 0x10_0000_0000_0000);
  }

  lemma ModAdd(x: nat, k: nat)
    ensures (x + CAPACITY * k) % CAPACITY == x % CAPACITY
  {
  }

  lemma OccupiedIsDistance(w: nat, r: nat)
    requires r <= w <= r + CAPACITY
    ensures Occupied(w % INDEX_MOD, r % INDEX_MOD) == w - r
    ensures w % INDEX_MOD == r % INDEX_MOD <==> w == r
  {
  }

  lemma AdvanceIndex(n: nat)
    ensures Advance(n % INDEX_MOD) == (n + 1) % INDEX_MOD
  {
  }

  lemma SlotsDiffer(i: nat, j: nat)
    requires i < j < i + CAPACITY
    ensures i % CAPACITY != j % CAPACITY
  {
  }

  // ---------------------------------------------------------------- every step keeps it

  /** A slot holding an item nobody has popped yet is never overwritten. */
  lemma UnreadSlotsSurvive<T>(s: Ring<T>, a: Action<T>, i: nat)
    requires Inv(s) && |s.popped| <= i < |s.accepted|
    ensures Step(s, a).slots[i % CAPACITY] == s.slots[i % CAPACITY]
  {
    if a.StepPush? && s.producer.BothLoaded? {
      var w := |s.accepted|;
      OccupiedIsDistance(w, s.seenPopped);
      if Occupied(s.producer.w, s.producer.r) < CAPACITY {
        SlotOfIndex(w);
        SlotsDiffer(i, w);
      }
    }
  }

  lemma ProducerStepKeepsInv<T>(s: Ring<T>)
    requires Inv(s)
    ensures Inv(ProducerStep(s))
  {
    var s' := ProducerStep(s);
    forall i | |s.popped| <= i < |s.accepted|
      ensures s'.slots[i % CAPACITY] == s.slots[i % CAPACITY]
    {
      UnreadSlotsSurvive(s, StepPush, i);
    }
    match s.producer
    case Idle =>
    case WriteLoaded(item, w) =>
    case BothLoaded(item, w, r) =>
      OccupiedIsDistance(|s.accepted|, s.seenPopped);
      SlotOfIndex(|s.accepted|);
      AdvanceIndex(s.drops);
    case SlotWritten(item, w) =>
      AdvanceIndex(|s.accepted|);
  }

  lemma ConsumerStepKeepsInv<T>(s: Ring<T>)
    requires Inv(s)
    ensures Inv(ConsumerStep(s))
  {
    match s.consumer
    case Waiting =>
    case ReadLoaded(r) =>
    case PairLoaded(r, w) =>
      OccupiedIsDistance(s.seenAccepted, |s.popped|);
      SlotOfIndex(|s.popped|);
    case SlotRead(r, item) =>
      AdvanceIndex(|s.popped|);
  }

  lemma StepKeepsInv<T>(s: Ring<T>, a: Action<T>)
    requires Inv(s)
    ensures Inv(Step(s, a))
  {
    match a
    case StartPush(item) =>
    case StepPush => ProducerStepKeepsInv(s);
    case StartPop =>
    case StepPop => ConsumerStepKeepsInv(s);
  }

  lemma {:induction false} RunKeepsInv<T>(slots: seq<T>, actions: seq<Action<T>>)
    requires |slots| == CAPACITY
    ensures Inv(Run(Init(slots), actions))
  {
    if actions != [] {
      RunKeepsInv(slots, actions[..|actions| - 1]);
      StepKeepsInv(Run(Init(slots), actions[..|actions| - 1]), actions[|actions| - 1]);
    }
  }

  /** In every interleaving, across any number of 64-bit index wraps: what was popped is a
      prefix of what was accepted, at most CAPACITY items are queued and each still sits
      intact in its slot, and every push attempt is popped, queued, dropped or in progress. */
  lemma RingRefinesQueue<T>(slots: seq<T>, actions: seq<Action<T>>)
    requires |slots| == CAPACITY
    ensures var s := Run(Init(slots), actions);
      && s.popped <= s.accepted
      && |s.accepted| - |s.popped| <= CAPACITY
      && (forall i :: |s.popped| <= i < |s.accepted| ==> s.slots[i % CAPACITY] == s.accepted[i])
      && s.attempts == |s.popped| + (|s.accepted| - |s.popped|) + s.drops + (if s.producer.Idle? then 0 else 1)
      && s.droppedCount == s.drops % INDEX_MOD
  {
    RunKeepsInv(slots, actions);
  }

  /** A push drops exactly when the ring was full at the moment it loaded the read index. */
  lemma DropMeansFull<T>(slots: seq<T>, actions: seq<Action<T>>)
    requires |slots| == CAPACITY
    requires Run(Init(slots), actions).producer.BothLoaded?
    ensures var s := Run(Init(slots), actions);
      Step(s, StepPush).drops > s.drops <==> |s.accepted| == s.seenPopped + CAPACITY
  {
    RunKeepsInv(slots, actions);
    var s := Run(Init(slots), actions);
    OccupiedIsDistance(|s.accepted|, s.seenPopped);
  }

  /** What is queued: accepted and not yet popped. */
  function Queued<T>(s: Ring<T>): seq<T>
    requires |s.popped| <= |s.accepted|
  {
    s.accepted[|s.popped|..]
  }

  /** At whatever point of a run the consumer takes its next step, the producer having done
      anything in between: loading the write index it sees two equal indices exactly when
      nothing is queued; equal indices end the pop and change nothing; otherwise it reads the
      oldest queued item from its slot, and later hands over that item and no other. */
  lemma PopIsFifo<T>(slots: seq<T>, actions: seq<Action<T>>)
    requires |slots| == CAPACITY
    ensures var s := Run(Init(slots), actions);
      var s' := Step(s, StepPop);
      && |s.popped| <= |s.accepted|
      && (s.consumer.ReadLoaded? ==>
            s'.consumer.PairLoaded? && (s'.consumer.r == s'.consumer.w <==> Queued(s) == []))
      && (s.consumer.PairLoaded? && s.consumer.r == s.consumer.w ==> s' == s.(consumer := Waiting))
      && (s.consumer.PairLoaded? && s.consumer.r != s.consumer.w ==>
            Queued(s) != [] && s' == s.(consumer := SlotRead(s.consumer.r, Queued(s)[0])))
      && (s.consumer.SlotRead? ==>
            Queued(s) != [] && s'.popped == s.popped + [Queued(s)[0]] && s'.consumer.Waiting?)
  {
    RunKeepsInv(slots, actions);
    var s := Run(Init(slots), actions);
    OccupiedIsDistance(|s.accepted|, |s.popped|);
    if s.consumer.PairLoaded? {
      OccupiedIsDistance(s.seenAccepted, |s.popped|);
      SlotOfIndex(|s.popped|);
    }
  }

  // ---------------------------------------------------------------- the class

  class BookDeltaRingBuffer<T> {
    var writeIndex: nat
    var readIndex: nat
    var droppedCount: nat
    const slots: array<T>

    ghost predicate Valid() reads this {
      && writeIndex < INDEX_MOD && readIndex < INDEX_MOD && slots.Length == CAPACITY
      && Occupied(writeIndex, readIndex) <= CAPACITY
    }

    ghost function Queued(): (q: seq<T>)
      requires Valid()
      reads this, slots
    {
      seq(Occupied(writeIndex, readIndex), i requires 0 <= i reads this, slots requires slots.Length == CAPACITY
        => slots[SlotOf(readIndex + i)])
    }

    constructor (initial: T)
      ensures Valid() && Queued() == [] && droppedCount == 0 && fresh(slots)
    {
      writeIndex, readIndex, droppedCount := 0, 0, 0;
      slots := new T[CAPACITY](_ => initial);
    }

    method TryPush(item: T) returns (ok: bool)
      requires Valid()
      modifies this, slots
      ensures Valid() && readIndex == old(readIndex)
      ensures ok <==> |old(Queued())| < CAPACITY
      ensures Queued() == if ok then old(Queued()) + [item] else old(Queued())
      ensures droppedCount == if ok then old(droppedCount) else Advance(old(droppedCount))
    {
      var w := writeIndex;
      var r := readIndex;
      if Occupied(w, r) >= CAPACITY {
        droppedCount := Advance(droppedCount);
        return false;
      }
      slots[SlotOf(w)] := item;
      writeIndex := Advance(w);
      ghost var n := Occupied(w, r);
      UnwrapPush(w, r);
      ghost var was := old(Queued());
      forall i | 0 <= i < |was|
        ensures Queued()[i] == was[i]
      {
        SlotsDiffer(r + i, r + n);
      }
      return true;
    }

    method TryPop() returns (ok: bool, item: T)
      requires Valid()
      modifies this
      ensures Valid() && writeIndex == old(writeIndex) && droppedCount == old(droppedCount)
      ensures ok <==> old(Queued()) != []
      ensures ok ==> [item] + Queued() == old(Queued())
      ensures !ok ==> Queued() == old(Queued())
    {
      var r := readIndex;
      var w := writeIndex;
      item := slots[SlotOf(r)];
      if r == w {
        return false, item;
      }
      readIndex := Advance(r);
      UnwrapPop(w, r);
      ghost var was := old(Queued());
      forall i | 0 <= i < |was| - 1
        ensures Queued()[i] == was[i + 1]
      {
        WrapSlot(r + 1, i);
      }
      return true, item;
    }
  }

  lemma UnwrapPush(w: nat, r: nat)
    requires w < INDEX_MOD && r < INDEX_MOD && Occupied(w, r) < CAPACITY
    ensures Occupied(Advance(w), r) == Occupied(w, r) + 1
    ensures SlotOf(r + Occupied(w, r)) == SlotOf(w)
  {
    var n := Occupied(w, r);
    assert (r + n) % INDEX_MOD == w;
    SlotOfIndex(r + n);
  }

  lemma UnwrapPop(w: nat, r: nat)
    requires w < INDEX_MOD && r < INDEX_MOD && w != r && Occupied(w, r) <= CAPACITY
    ensures Occupied(w, Advance(r)) == Occupied(w, r) - 1
  {
  }

  lemma WrapSlot(n: nat, i: nat)
    ensures SlotOf(n % INDEX_MOD + i) == SlotOf(n + i)
  {
    SlotOfIndex(n);
    assert SlotOf(n % INDEX_MOD + i) == SlotOf(n % CAPACITY + i);
    assert SlotOf(n + i) == SlotOf(n % CAPACITY + i);
  }
}
