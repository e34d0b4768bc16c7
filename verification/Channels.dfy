/** The ring buffer, step by step, behaves as the queue the replication model uses. */
module Channels {
  import opened BookStream
  import opened Replication
  import RingBuffer

  type DeltaRing = RingBuffer.Ring<Delta>

  /** The queue move a ring step amounts to: an accepted push takes effect when the write
      index is stored, a dropped one when the ring is found full, a pop when the read index
      is stored; every other step is invisible. */
  function QueueStep(ring: DeltaRing, a: RingBuffer.Action<Delta>, q: Queue): Queue {
    if a.StepPush? && ring.producer.SlotWritten? then Pushing(q, ring.producer.item, false)
    else if a.StepPush? && ring.producer.BothLoaded?
            && RingBuffer.Occupied(ring.producer.w, ring.producer.r) >= RingBuffer.CAPACITY
    then Pushing(q, ring.producer.item, true)
    else if a.StepPop? && ring.consumer.SlotRead? && q.items != [] then Popped(q)
    else q
  }

  lemma StepSimulates(ring: DeltaRing, a: RingBuffer.Action<Delta>, q: Queue)
    requires RingBuffer.Inv(ring) && q.items == RingBuffer.Queued(ring)
    ensures RingBuffer.Inv(RingBuffer.Step(ring, a))
    ensures QueueStep(ring, a, q).items == RingBuffer.Queued(RingBuffer.Step(ring, a))
    ensures a.StepPop? && ring.consumer.SlotRead? ==> q.items != [] && q.items[0] == ring.consumer.item
  {
    RingBuffer.StepKeepsInv(ring, a);
    var ring' := RingBuffer.Step(ring, a);
    if a.StepPush? && ring.producer.SlotWritten? {
      assert ring'.accepted[|ring.popped|..] == ring.accepted[|ring.popped|..] + [ring.producer.item];
    }
  }

  /** The queue after the moves of a whole run. */
  function QueueRun(slots: seq<Delta>, actions: seq<RingBuffer.Action<Delta>>): Queue
    requires |slots| == RingBuffer.CAPACITY
  {
    if actions == [] then Queue([], 0, {}, {})
    else
      var before := actions[..|actions| - 1];
      QueueStep(RingBuffer.Run(RingBuffer.Init(slots), before), actions[|actions| - 1], QueueRun(slots, before))
  }

  /** In every interleaving of the ring's loads and stores the items it holds are those of
      the queue that made the corresponding pushes, drops and pops in one step each. */
  lemma {:induction false} RingIsTheQueue(slots: seq<Delta>, actions: seq<RingBuffer.Action<Delta>>)
    requires |slots| == RingBuffer.CAPACITY
    ensures var ring := RingBuffer.Run(RingBuffer.Init(slots), actions);
      RingBuffer.Inv(ring) && QueueRun(slots, actions).items == RingBuffer.Queued(ring)
    decreases |actions|
  {
    if actions != [] {
      var before := actions[..|actions| - 1];
      RingIsTheQueue(slots, before);
      StepSimulates(RingBuffer.Run(RingBuffer.Init(slots), before), actions[|actions| - 1], QueueRun(slots, before));
    }
  }
}
