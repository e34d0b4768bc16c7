/** What every run of the replication guarantees: when the mirror is the book, when it is not,
    what a gap reveals and what a resync repairs. */
module ReplicationRuns {
  import opened OrderBook
  import opened BookStream
  import opened BookClient
  import opened BookMessages
  import opened Replication

  // ---------------------------------------------------------------- what every run guarantees

  /** In every interleaving the mirror is exactly its baseline snapshot plus the deltas after
      it that were not lost, and the baseline is what the stream said at that point. */
  lemma MirrorIsBaselinePlusKept(actions: seq<Action>)
    requires !Run(Init(), actions).r.phase.Unregistered?
    ensures var s := Run(Init(), actions);
      && s.r.baseCut <= s.r.base <= Upto(s.r) <= |s.w.log|
      && s.r.baseMaps == Stretch(s.w.log, s.r.baseCut, s.r.base)
      && s.r.mirror == Replay(s.r.baseMaps, Kept(s.w.log[s.r.base..Upto(s.r)], Missed(s.q)))
  {
    RunKeepsInv(actions);
  }

  /** The jumps the reader logged since its baseline tell exactly whether a delta between the
      baseline and expectedSeq was lost. */
  lemma JumpsTellLoss(actions: seq<Action>)
    requires !Run(Init(), actions).r.phase.Unregistered?
    ensures var s := Run(Init(), actions);
      s.r.jumps == 0 <==> forall n :: n in Missed(s.q) ==> n <= s.r.base || n > Upto(s.r)
  {
    RunKeepsInv(actions);
  }

  lemma MirrorWithoutLoss(s: Sys)
    requires Inv(s) && !s.r.phase.Unregistered? && s.r.jumps == 0
    ensures s.r.mirror == Replay(s.r.baseMaps, s.w.log[s.r.base..Upto(s.r)])
  {
    var ds := s.w.log[s.r.base..Upto(s.r)];
    forall i | 0 <= i < |ds|
      ensures ds[i].seqNo !in Missed(s.q)
    {
      assert s.w.log[s.r.base + i].seqNo == s.r.base + i + 1;
    }
    KeptAll(ds, Missed(s.q));
  }

  lemma StretchConcat(log: seq<Delta>, a: nat, b: nat, c: nat)
    requires a <= b <= c <= |log|
    ensures Stretch(log, a, c) == Replay(Stretch(log, a, b), log[b..c])
  {
    ReplayConcat(EMPTY, log[a..b], log[b..c]);
    assert log[a..c] == log[a..b] + log[b..c];
  }

  /** End to end: without a jump and without a clear of a non-empty book since the baseline,
      the mirror is the stream replayed up to expectedSeq - 1, whatever the ring has dropped
      further ahead. */
  lemma EndToEndReplication(actions: seq<Action>)
    requires var s := Run(Init(), actions);
      !s.r.phase.Unregistered? && s.r.jumps == 0 && s.r.baseCut == s.w.cut
    ensures var s := Run(Init(), actions);
      && s.w.cut <= Upto(s.r) <= |s.w.log|
      && s.r.mirror == Stretch(s.w.log, s.w.cut, Upto(s.r))
  {
    RunKeepsInv(actions);
    var s := Run(Init(), actions);
    MirrorWithoutLoss(s);
    StretchConcat(s.w.log, s.w.cut, s.r.base, Upto(s.r));
  }

  /** With jumps, exactly when the loss is harmless: on every level whose last word was lost,
      the kept deltas left what the lost one said. */
  lemma LossyMirrorIff(actions: seq<Action>)
    requires var s := Run(Init(), actions); !s.r.phase.Unregistered? && s.r.baseCut == s.w.cut
    ensures var s := Run(Init(), actions);
      && s.w.cut <= s.r.base <= Upto(s.r) <= |s.w.log|
      && (s.r.mirror == Stretch(s.w.log, s.w.cut, Upto(s.r)) <==>
            LossHarmless(s.r.baseMaps, s.w.log[s.r.base..Upto(s.r)], Missed(s.q)))
  {
    RunKeepsInv(actions);
    var s := Run(Init(), actions);
    LossyReplayIff(s.r.baseMaps, s.w.log[s.r.base..Upto(s.r)], Missed(s.q));
    StretchConcat(s.w.log, s.w.cut, s.r.base, Upto(s.r));
  }

  // ---------------------------------------------------------------- a drained reader

  /** The reader is polling an empty ring and the writer is at a message boundary. */
  predicate Drained(s: Sys) {
    s.r.phase.Polling? && s.q.items == [] && s.w.outgoing == []
  }

  /** The newest delta reached the reader, by the ring or in its baseline. */
  predicate NewestArrived(s: Sys) { |s.w.log| > s.r.base ==> |s.w.log| !in Missed(s.q) }

  lemma AheadIsMissed(s: Sys, n: nat)
    requires Inv(s) && Drained(s) && Upto(s.r) < n <= |s.w.log|
    ensures n in Missed(s.q)
  {
    assert !InRing(s.q.items, n);
  }

  lemma DrainedUpto(s: Sys)
    requires Inv(s) && Drained(s) && s.r.jumps == 0
    ensures Upto(s.r) == |s.w.log| <==> NewestArrived(s)
  {
    if Upto(s.r) < |s.w.log| { AheadIsMissed(s, |s.w.log|); }
  }

  /** A drained reader without jumps has everything exactly when the newest delta arrived:
      a drop at the end of the stream leaves no gap to see. */
  lemma DrainedIsCurrentIff(actions: seq<Action>)
    requires var s := Run(Init(), actions); Drained(s) && s.r.jumps == 0
    ensures var s := Run(Init(), actions); s.r.expected == |s.w.log| + 1 <==> NewestArrived(s)
  {
    RunKeepsInv(actions);
    DrainedUpto(Run(Init(), actions));
  }

  lemma DrainedMirror(s: Sys)
    requires Inv(s) && Drained(s) && s.r.jumps == 0 && NewestArrived(s)
    ensures s.r.baseCut <= s.w.cut <= |s.w.log| && s.r.mirror == Stretch(s.w.log, s.r.baseCut, |s.w.log|)
    ensures EngineMaps(s.w.engine) == Stretch(s.w.log, s.w.cut, |s.w.log|)
  {
    MirrorWithoutLoss(s);
    DrainedUpto(s);
    StretchConcat(s.w.log, s.r.baseCut, s.r.base, |s.w.log|);
  }

  /** A longer stretch of the stream ends in the same maps exactly when what it starts with
      is all named again. */
  lemma LongerStretch(log: seq<Delta>, a: nat, b: nat)
    requires a <= b <= |log|
    ensures Stretch(log, a, |log|) == Stretch(log, b, |log|) <==> AllTouched(Stretch(log, a, b), log[b..])
  {
    StretchConcat(log, a, b, |log|);
    assert log[b..] == log[b..|log|];
    StaleStartAgrees(Stretch(log, a, b), log[b..]);
  }

  /** A drained mirror without jumps that the newest delta reached equals the engine's book
      exactly when every level the stream described before the last clear has been named
      again since; in particular whenever its baseline is as recent as that clear. */
  lemma DrainedMirrorIsTheBook(actions: seq<Action>)
    requires var s := Run(Init(), actions); Drained(s) && s.r.jumps == 0 && NewestArrived(s)
    ensures var s := Run(Init(), actions);
      && s.r.baseCut <= s.w.cut <= |s.w.log|
      && (s.r.mirror == EngineMaps(s.w.engine) <==>
            AllTouched(Stretch(s.w.log, s.r.baseCut, s.w.cut), s.w.log[s.w.cut..]))
      && (s.r.baseCut == s.w.cut ==> s.r.mirror == EngineMaps(s.w.engine))
  {
    RunKeepsInv(actions);
    var s := Run(Init(), actions);
    DrainedMirror(s);
    LongerStretch(s.w.log, s.r.baseCut, s.w.cut);
  }

  /** All the deltas that made a drained mirror: its baseline's, then those not lost. */
  function Heard(s: Sys): seq<Delta>
    requires s.r.baseCut <= s.r.base <= |s.w.log|
  {
    s.w.log[s.r.baseCut..s.r.base] + Kept(s.w.log[s.r.base..], Missed(s.q))
  }

  lemma NothingKeptAfter(log: seq<Delta>, base: nat, upto: nat, missed: set<nat>)
    requires Numbered(log, 0) && base <= upto <= |log|
    requires forall n: nat :: upto < n <= |log| ==> n in missed
    ensures Kept(log[base..], missed) == Kept(log[base..upto], missed)
  {
    var rest := log[upto..];
    forall i | 0 <= i < |rest|
      ensures rest[i].seqNo in missed
    {
      assert log[upto + i].seqNo == upto + i + 1;
    }
    KeptNone(rest, missed);
    KeptConcat(log[base..upto], rest, missed);
    assert log[base..] == log[base..upto] + rest;
  }

  lemma HeardMirror(s: Sys)
    requires Inv(s) && Drained(s)
    ensures s.r.baseCut <= s.r.base <= |s.w.log| && s.r.mirror == Replay(EMPTY, Heard(s))
  {
    forall n: nat | Upto(s.r) < n <= |s.w.log|
      ensures n in Missed(s.q)
    {
      AheadIsMissed(s, n);
    }
    NothingKeptAfter(s.w.log, s.r.base, Upto(s.r), Missed(s.q));
    ReplayConcat(EMPTY, s.w.log[s.r.baseCut..s.r.base], Kept(s.w.log[s.r.base..], Missed(s.q)));
  }

  lemma BookIsReplayed(w: Writer)
    requires WriterInv(w)
    ensures EngineMaps(w.engine) == Replay(EMPTY, w.log[w.cut..])
  {
    assert w.log[w.cut..] == w.log[w.cut..|w.log|];
  }

  /** The two streams have the same last word on every level. */
  ghost predicate SameLastWords(a: seq<Delta>, b: seq<Delta>) {
    forall side, price :: Said(None, a, side, price) == Said(None, b, side, price)
  }

  lemma FromNothing(a: seq<Delta>, b: seq<Delta>)
    ensures Replay(EMPTY, a) == Replay(EMPTY, b) <==> SameLastWords(a, b)
  {
    ReplaysAgreeIff(EMPTY, a, EMPTY, b);
    if Replay(EMPTY, a) == Replay(EMPTY, b) {
      forall side, price
        ensures Said(None, a, side, price) == Said(None, b, side, price)
      {
        var none := At(EMPTY, side, price);
        assert Said(none, a, side, price) == Said(none, b, side, price);
      }
    }
  }

  /** Any drained mirror, after whatever drops, jumps and clears, equals the engine's book
      exactly when on every level the last thing the reader heard is the last thing the
      stream said since the last clear. */
  lemma DrainedMirrorIff(actions: seq<Action>)
    requires Drained(Run(Init(), actions))
    ensures var s := Run(Init(), actions);
      && s.r.baseCut <= s.r.base <= |s.w.log| && s.w.cut <= |s.w.log|
      && (s.r.mirror == EngineMaps(s.w.engine) <==> SameLastWords(Heard(s), s.w.log[s.w.cut..]))
  {
    RunKeepsInv(actions);
    var s := Run(Init(), actions);
    HeardMirror(s);
    BookIsReplayed(s.w);
    FromNothing(Heard(s), s.w.log[s.w.cut..]);
  }

  /** While polling, the next delta is the expected one exactly when nothing in between was
      lost; it is never an older one, and nothing already covered can still arrive. */
  lemma GapDetection(actions: seq<Action>)
    requires Run(Init(), actions).r.phase.Polling?
    ensures var s := Run(Init(), actions);
      && (forall i :: 0 <= i < |s.q.items| ==> s.q.items[i].seqNo >= s.r.expected)
      && (forall i :: 0 <= i < |s.w.outgoing| ==> s.w.outgoing[i].seqNo >= s.r.expected)
      && s.w.engine.lastSeq + 1 >= s.r.expected
      && (s.q.items != [] ==>
            (s.q.items[0].seqNo == s.r.expected <==>
             forall n :: s.r.expected <= n < s.q.items[0].seqNo ==> n !in Missed(s.q)))
  {
    RunKeepsInv(actions);
    var s := Run(Init(), actions);
    if s.q.items != [] {
      GapIsMissed(s.q, s.w.log, Pushed(s.w), Upto(s.r));
      if s.q.items[0].seqNo != s.r.expected {
        assert s.r.expected in Missed(s.q);
      }
    }
  }

  lemma StepNeverGoesBack(s: Sys, a: Action)
    requires Inv(s)
    ensures Step(s, a).r.expected >= s.r.expected
    ensures s.q.dropped <= Step(s, a).q.dropped
  {
  }

  /** expectedSeq never decreases along a run. */
  lemma {:induction false} ExpectedNeverDecreases(before: seq<Action>, after: seq<Action>)
    ensures Run(Init(), before).r.expected <= Run(Init(), before + after).r.expected
    decreases |after|
  {
    if after == [] {
      assert before + after == before;
    } else {
      var pre := after[..|after| - 1];
      ExpectedNeverDecreases(before, pre);
      assert (before + after)[..|before + after| - 1] == before + pre;
      NextNeverGoesBack(before + pre, after[|after| - 1]);
    }
  }

  lemma NextNeverGoesBack(actions: seq<Action>, a: Action)
    ensures Run(Init(), actions).r.expected <= Step(Run(Init(), actions), a).r.expected
  {
    RunKeepsInv(actions);
    StepNeverGoesBack(Run(Init(), actions), a);
  }

  // ---------------------------------------------------------------- recovery

  /** The published snapshot is at least as recent as every lost delta. */
  ghost predicate CoversLoss(slot: Slot, q: Queue) {
    forall n :: n in Missed(q) ==> n <= slot.snapshot.seqNo
  }

  /** Everything lost so far lies behind expectedSeq. */
  ghost predicate NoneAhead(s: Sys) { forall n :: n in Missed(s.q) ==> n <= Upto(s.r) }

  predicate Following(r: Reader) { r.phase.Polling? || r.phase.CatchingUp? }

  /** Same baseline, same jumps, same loss, all of it behind. */
  ghost predicate Undisturbed(s: Sys, t: Sys) {
    && Following(t.r) && NoneAhead(t) && (s.r.phase.Polling? ==> t.r.phase.Polling?)
    && t.r.base == s.r.base && t.r.baseMaps == s.r.baseMaps && t.r.jumps == s.r.jumps
    && Missed(t.q) == Missed(s.q)
  }

  lemma NextIsNext(s: Sys)
    requires Inv(s) && Following(s.r) && NoneAhead(s) && s.q.items != [] && s.q.items[0].seqNo > Upto(s.r)
    ensures s.q.items[0].seqNo == Upto(s.r) + 1
  {
    GapIsMissed(s.q, s.w.log, Pushed(s.w), Upto(s.r));
    assert Upto(s.r) + 1 !in Missed(s.q);
  }

  lemma QuietStep(s: Sys, a: Action)
    requires Inv(s) && Following(s.r) && NoneAhead(s) && Step(s, a).q.dropped == s.q.dropped
    ensures Undisturbed(s, Step(s, a))
  {
    if s.q.items != [] && s.q.items[0].seqNo > Upto(s.r) { NextIsNext(s); }
    if a.Push? && s.w.outgoing != [] {
      PushKeepsWriter(s.w);
      assert Pushed(s.w) + 1 !in s.q.dropped;
    }
  }

  /** As long as nothing more is dropped, a reader that has everything lost behind it never
      sees a gap and never jumps again. */
  lemma {:induction false} QuietRun(s: Sys, actions: seq<Action>)
    requires Inv(s) && Following(s.r) && NoneAhead(s) && Run(s, actions).q.dropped == s.q.dropped
    ensures Inv(Run(s, actions)) && Undisturbed(s, Run(s, actions))
    decreases |actions|
  {
    if actions != [] {
      var pre, a := actions[..|actions| - 1], actions[|actions| - 1];
      RunKeepsInvFrom(s, pre);
      RunNeverUndrops(s, pre);
      var m := Run(s, pre);
      StepNeverGoesBack(m, a);
      assert m.q.dropped == s.q.dropped;
      QuietRun(s, pre);
      QuietStep(m, a);
      StepKeepsInv(m, a);
    }
  }

  lemma {:induction false} RunKeepsInvFrom(s: Sys, actions: seq<Action>)
    requires Inv(s)
    ensures Inv(Run(s, actions))
    decreases |actions|
  {
    if actions != [] {
      RunKeepsInvFrom(s, actions[..|actions| - 1]);
      StepKeepsInv(Run(s, actions[..|actions| - 1]), actions[|actions| - 1]);
    }
  }

  lemma {:induction false} RunNeverUndrops(s: Sys, actions: seq<Action>)
    requires Inv(s)
    ensures s.q.dropped <= Run(s, actions).q.dropped
    decreases |actions|
  {
    if actions != [] {
      var pre := actions[..|actions| - 1];
      RunNeverUndrops(s, pre);
      RunKeepsInvFrom(s, pre);
      StepNeverGoesBack(Run(s, pre), actions[|actions| - 1]);
    }
  }

  lemma BaseStep(s: Sys, a: Action)
    requires s.r.base <= Upto(s.r) && !s.r.phase.Unregistered?
    ensures s.r.base <= Step(s, a).r.base && !Step(s, a).r.phase.Unregistered?
  {
  }

  lemma {:induction false} BaseNeverDecreases(s: Sys, actions: seq<Action>)
    requires Inv(s) && !s.r.phase.Unregistered?
    ensures s.r.base <= Run(s, actions).r.base && !Run(s, actions).r.phase.Unregistered?
    decreases |actions|
  {
    if actions != [] {
      var pre := actions[..|actions| - 1];
      BaseNeverDecreases(s, pre);
      RunKeepsInvFrom(s, pre);
      BaseStep(Run(s, pre), actions[|actions| - 1]);
    }
  }

  /** The delta that revealed the gap is itself lost. */
  lemma GapItemIsLost(actions: seq<Action>)
    requires Run(Init(), actions).r.phase.Resyncing?
    ensures var s := Run(Init(), actions); s.q.lastPopped in Missed(s.q) && s.q.lastPopped > Upto(s.r)
  {
    RunKeepsInv(actions);
  }

  /** Reading a snapshot that covers it and every other loss restarts with nothing lost. */
  lemma CoveringRead(s: Sys)
    requires Inv(s) && s.r.phase.Resyncing? && CoversLoss(s.slot, s.q)
    ensures Step(s, ReadSnapshot) == s.(r := Rebuilt(s.r, s.slot)) && Inv(Step(s, ReadSnapshot))
  {
    assert s.q.lastPopped in Missed(s.q) && s.q.lastPopped > Upto(s.r);
    ReadKeepsInv(s);
  }

  lemma ExactAgain(s: Sys, actions: seq<Action>)
    requires Inv(s) && Following(s.r) && (forall n :: n in Missed(s.q) ==> n <= s.r.base)
    requires var t := Run(s, actions);
      forall n :: n in Missed(t.q) && n !in Missed(s.q) ==> n <= t.r.base || n > Upto(t.r)
    ensures var t := Run(s, actions);
      && t.r.jumps == 0 && t.r.base <= Upto(t.r) <= |t.w.log|
      && t.r.mirror == Replay(t.r.baseMaps, t.w.log[t.r.base..Upto(t.r)])
  {
    RunKeepsInvFrom(s, actions);
    BaseNeverDecreases(s, actions);
    MirrorWithoutLoss(Run(s, actions));
  }

  /** After a resync from a snapshot covering every loss, the mirror is exact up to
      expectedSeq - 1 for as long as no newly lost delta gets between baseline and mirror;
      while nothing more is dropped, no further gap is even seen. */
  lemma RecoveryLasts(before: seq<Action>, after: seq<Action>)
    requires var s := Run(Init(), before); s.r.phase.Resyncing? && CoversLoss(s.slot, s.q)
    requires var s := Run(Init(), before);
      var t := Run(Step(s, ReadSnapshot), after);
      forall n :: n in Missed(t.q) && n !in Missed(s.q) ==> n <= t.r.base || n > Upto(t.r)
    ensures var s := Run(Init(), before);
      var t := Run(Step(s, ReadSnapshot), after);
      && t.r.jumps == 0 && t.r.base <= Upto(t.r) <= |t.w.log|
      && t.r.mirror == Replay(t.r.baseMaps, t.w.log[t.r.base..Upto(t.r)])
      && (t.q.dropped == s.q.dropped ==> Following(t.r) && t.r.base == s.slot.snapshot.seqNo)
  {
    RunKeepsInv(before);
    var s := Run(Init(), before);
    CoveringRead(s);
    ExactAgain(Step(s, ReadSnapshot), after);
    if Run(Step(s, ReadSnapshot), after).q.dropped == s.q.dropped { QuietRun(Step(s, ReadSnapshot), after); }
  }

  /** The other way round: once a reader has caught up past a loss, nothing repairs it. As
      long as nothing more is dropped it sees no gap, never resyncs, and keeps the baseline
      and the loss it has. */
  lemma LossLasts(before: seq<Action>, after: seq<Action>)
    requires var s := Run(Init(), before);
      s.r.phase.Polling? && s.r.jumps > 0 && NoneAhead(s) && Run(s, after).q.dropped == s.q.dropped
    ensures var s, t := Run(Init(), before), Run(Run(Init(), before), after);
      && t.r.phase.Polling? && t.r.base == s.r.base && t.r.jumps == s.r.jumps && Missed(t.q) == Missed(s.q)
      && t.r.base <= Upto(t.r) <= |t.w.log|
      && t.r.mirror == Replay(t.r.baseMaps, Kept(t.w.log[t.r.base..Upto(t.r)], Missed(s.q)))
  {
    RunKeepsInv(before);
    QuietRun(Run(Init(), before), after);
  }

  // ---------------------------------------------------------------- clears are not replicated

  lemma EmptyMapsMeanEmptyBook(e: Engine)
    ensures EngineMaps(e) == EMPTY <==> IsEmpty(e)
  {
    if e.bids != [] { assert e.bids[|e.bids| - 1].price in MapOf(e.bids); }
    if e.asks != [] { assert e.asks[|e.asks| - 1].price in MapOf(e.asks); }
  }

  /** Clearing strands an up-to-date, drained mirror exactly when the book was not empty. */
  lemma ClearStrandsTheMirror(actions: seq<Action>)
    requires var s := Run(Init(), actions);
      Drained(s) && s.r.jumps == 0 && NewestArrived(s) && s.r.baseCut == s.w.cut
    ensures var s := Run(Init(), actions);
      var t := Step(s, ClearBook);
      && Drained(t) && t.r.jumps == 0 && NewestArrived(t)
      && (t.r.mirror == EngineMaps(t.w.engine) <==> IsEmpty(s.w.engine))
  {
    DrainedMirrorIsTheBook(actions);
    EmptyMapsMeanEmptyBook(Run(Init(), actions).w.engine);
  }

  /** It does happen: one level, one snapshot, a caught-up reader, then a clear. */
  lemma StaleMirrorIsReachable()
    ensures exists actions ::
      var s := Run(Init(), actions);
      Drained(s) && s.r.jumps == 0 && NewestArrived(s) && s.r.mirror != EngineMaps(s.w.engine)
  {
    var a1 := [] + [UpdateLevel(Bid, 7, 1)];
    var a2 := a1 + [Push(false)];
    var a3 := a2 + [PublishSnapshot];
    var a4 := a3 + [Register];
    var a5 := a4 + [CatchUp];
    var a6 := a5 + [CatchUp];
    RunSnoc(Init(), [], UpdateLevel(Bid, 7, 1));
    RunSnoc(Init(), a1, Push(false));
    RunSnoc(Init(), a2, PublishSnapshot);
    RunSnoc(Init(), a3, Register);
    RunSnoc(Init(), a4, CatchUp);
    RunSnoc(Init(), a5, CatchUp);
    RunSnoc(Init(), a6, ClearBook);
    var d := Delta(1, Bid, 7, 1);
    assert Placed(Bid, [], 7, 1) == [Level(7, 1)];
    assert UpdateDeltas(Engine([], [], 0, 0), Bid, 7, 1) == [d];
    var s1 := Run(Init(), a1);
    assert s1.w.engine.bids == [Level(7, 1)] && s1.w.outgoing == [d];
    var s2 := Run(Init(), a2);
    assert s2.w.outgoing == [] && s2.q == Queue([d], 0, {}, {});
    var s5 := Run(Init(), a5);
    assert s5.q == Queue([], 1, {}, {}) && s5.r.phase == CatchingUp(2, 1);
    ClearStrandsTheMirror(a6);
    assert Run(Init(), a6 + [ClearBook]) == Step(Run(Init(), a6), ClearBook);
  }

  // ---------------------------------------------------------------- messages are runs

  /** The writer's steps for one client operation, every push accepted. */
  function ActionsOfOp(op: Op): seq<Action> {
    match op
    case Update(side, price, qty) =>
      if qty < 0 then [] else [UpdateLevel(side, price, qty)] + [Push(false)] + [Push(false)]
    case Clear => [ClearBook]
    case Publish => [PublishSnapshot]
  }

  function ActionsOf(ops: seq<Op>): seq<Action> {
    if ops == [] then [] else ActionsOf(ops[..|ops| - 1]) + ActionsOfOp(ops[|ops| - 1])
  }

  /** The system's book, stream and slot are those the client's output shows. */
  ghost predicate Produced(s: Sys, o: Output) {
    s.w.engine == o.engine && s.w.log == DeltasOf(o.events) && s.slot.snapshot == LastSnapshot(o.events)
  }

  lemma OpIsARun(s: Sys, o: Output, op: Op)
    requires s.w.outgoing == [] && ValidOp(op)
    requires Produced(s, o)
    ensures var t := Run(s, ActionsOfOp(op)); t.w.outgoing == [] && Produced(t, StepOp(o, op))
  {
    StepOpDeltas(o, op);
    StepLastSnapshot(o, op);
    match op
    case Update(side, price, qty) =>
      var up := UpdateLevel(side, price, qty);
      RunOne(s, up);
      RunSnoc(s, [up], Push(false));
      RunSnoc(s, [up] + [Push(false)], Push(false));
    case Clear => RunOne(s, ClearBook);
    case Publish => RunOne(s, PublishSnapshot);
  }

  /** The book client's operations, hence its messages, are runs of the writer: same book,
      same numbering, same stream, and in the slot the snapshot emitted last. */
  lemma {:induction false} MessagesAreRuns(ops: seq<Op>)
    requires ValidOps(ops)
    ensures var t := Run(Init(), ActionsOf(ops));
      var o := RunOps(Output(Engine([], [], 0, 0), []), ops);
      && t.w.outgoing == [] && t.w.engine == o.engine && t.w.log == DeltasOf(o.events)
      && t.slot.snapshot == LastSnapshot(o.events)
    decreases |ops|
  {
    if ops != [] {
      var pre := ops[..|ops| - 1];
      MessagesAreRuns(pre);
      OpIsARun(Run(Init(), ActionsOf(pre)), RunOps(Output(Engine([], [], 0, 0), []), pre), ops[|ops| - 1]);
      RunConcat(Init(), ActionsOf(pre), ActionsOfOp(ops[|ops| - 1]));
    }
  }
}
