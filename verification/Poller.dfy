/** The backend's reader of one symbol slot, as the imperative code it is. Each method carries
    the script of steps that happened while it ran, its own and the engine's, so that it is
    one run of the pipeline. */
module Poller {
  import opened OrderBook
  import opened BookStream
  import Replication

  /** What the poller reports to its callbacks. */
  datatype Report = DeltaReport(delta: Delta) | SnapshotReport(seqNo: int, maps: Maps)

  predicate IsWriterStep(a: Replication.Action) {
    a.UpdateLevel? || a.ClearBook? || a.PublishSnapshot? || a.Push?
  }

  predicate WriterScript(script: seq<Replication.Action>) {
    forall i :: 0 <= i < |script| ==> IsWriterStep(script[i])
  }

  /** Nobody registers the symbol a second time. */
  predicate NoRegister(script: seq<Replication.Action>) {
    forall i :: 0 <= i < |script| ==> !script[i].Register?
  }

  lemma {:induction false} WriterLeavesReader(s: Replication.Sys, script: seq<Replication.Action>)
    requires WriterScript(script)
    ensures Replication.Run(s, script).r == s.r
    decreases |script|
  {
    if script != [] { WriterLeavesReader(s, script[..|script| - 1]); }
  }

  /** What a client holds after applying a report, and after applying several. */
  function AfterReport(m: Maps, report: Report): Maps {
    match report
    case DeltaReport(d) => ApplyToMaps(m, d)
    case SnapshotReport(_, maps) => maps
  }

  function AfterReports(m: Maps, reports: seq<Report>): Maps {
    if reports == [] then m else AfterReport(AfterReports(m, reports[..|reports| - 1]), reports[|reports| - 1])
  }

  /** Applying the reports added since `before` turns m into m'. */
  ghost predicate Tells(before: seq<Report>, reports: seq<Report>, m: Maps, m': Maps) {
    before <= reports && AfterReports(m, reports[|before|..]) == m'
  }

  lemma TellsNothing(before: seq<Report>, m: Maps)
    ensures Tells(before, before, m, m)
  {
    assert before[|before|..] == [];
  }

  lemma TellsDelta(before: seq<Report>, reports: seq<Report>, m: Maps, m': Maps, d: Delta)
    requires Tells(before, reports, m, m')
    ensures Tells(before, reports + [DeltaReport(d)], m, ApplyToMaps(m', d))
  {
    var new' := (reports + [DeltaReport(d)])[|before|..];
    assert new'[..|new'| - 1] == reports[|before|..];
  }

  lemma TellsSnapshot(before: seq<Report>, reports: seq<Report>, m: Maps, m': Maps)
    requires before < reports
    requires reports[|reports| - 1].SnapshotReport? && reports[|reports| - 1].maps == m'
    ensures Tells(before, reports, m, m')
  {
  }

  lemma {:induction false} AfterReportsConcat(m: Maps, a: seq<Report>, b: seq<Report>)
    ensures AfterReports(m, a + b) == AfterReports(AfterReports(m, a), b)
    decreases |b|
  {
    if b == [] {
      assert a + b == a;
    } else {
      AfterReportsConcat(m, a, b[..|b| - 1]);
      assert (a + b)[..|a + b| - 1] == a + b[..|b| - 1];
    }
  }

  lemma TellsMore(before: seq<Report>, mid: seq<Report>, reports: seq<Report>, m: Maps, m': Maps, m'': Maps)
    requires Tells(before, mid, m, m') && Tells(mid, reports, m', m'')
    ensures Tells(before, reports, m, m'')
  {
    AfterReportsConcat(m, mid[|before|..], reports[|mid|..]);
    assert reports[|before|..] == mid[|before|..] + reports[|mid|..];
  }

  class BookPoller {
    var expectedSeq: nat
    var bids: map<int, int>
    var asks: map<int, int>
    var reports: seq<Report>
    /** The pipeline this poller is the reader of: it pops the ring and reads the slot. */
    var sys: Replication.Sys
    /** What the engine will do between any two steps of the poller, burst by burst. */
    var bursts: seq<seq<Replication.Action>>

    predicate Shared() reads this { forall i :: 0 <= i < |bursts| ==> WriterScript(bursts[i]) }

    ghost predicate Valid() reads this {
      && Shared()
      && !sys.r.phase.Unregistered?
      && expectedSeq == sys.r.expected
      && Maps(bids, asks) == sys.r.mirror
    }

    /** First registration of a symbol: start from the slot's snapshot and drain the ring. */
    constructor Register(start: Replication.Sys, engine: seq<seq<Replication.Action>>)
      requires start.r.phase.Unregistered? && start.r.expected == 0
      requires forall i :: 0 <= i < |engine| ==> WriterScript(engine[i])
      ensures Valid() && sys.r.phase.Polling? && sys.q.items == [] && expectedSeq >= 1
      ensures exists script ::
        NoRegister(script) && sys == Replication.Run(Replication.Step(start, Replication.Register), script)
    {
      expectedSeq, bids, asks, reports, bursts := 0, map[], map[], [], engine;
      sys := Replication.Step(start, Replication.Register);
      new;
      RebuildMirror(start.slot.snapshot);
      var script := CatchUpFromSnapshot(start.slot.snapshot.seqNo);
    }

    /** The engine gets a turn. */
    method Engine() returns (ghost script: seq<Replication.Action>)
      requires Shared()
      modifies this`sys, this`bursts
      ensures Shared() && sys.r == old(sys.r)
      ensures WriterScript(script) && sys == Replication.Run(old(sys), script)
      ensures if old(bursts) == [] then bursts == [] && sys == old(sys) else bursts == old(bursts)[1..]
    {
      script := [];
      if bursts != [] {
        script := bursts[0];
        WriterLeavesReader(sys, bursts[0]);
        sys := Replication.Run(sys, bursts[0]);
        bursts := bursts[1..];
      }
    }

    method RebuildMirror(snapshot: Snapshot)
      modifies this`bids, this`asks
      ensures Maps(bids, asks) == MapsOf(snapshot.bids, snapshot.asks)
    {
      var newBids: map<int, int>, newAsks: map<int, int> := map[], map[];
      for i := 0 to |snapshot.bids|
        invariant newBids == MapOf(snapshot.bids[..i])
      {
        newBids := newBids[snapshot.bids[i].price := snapshot.bids[i].qty];
        assert snapshot.bids[..i + 1][..i] == snapshot.bids[..i];
      }
      for i := 0 to |snapshot.asks|
        invariant newAsks == MapOf(snapshot.asks[..i])
      {
        newAsks := newAsks[snapshot.asks[i].price := snapshot.asks[i].qty];
        assert snapshot.asks[..i + 1][..i] == snapshot.asks[..i];
      }
      assert snapshot.bids[..|snapshot.bids|] == snapshot.bids && snapshot.asks[..|snapshot.asks|] == snapshot.asks;
      bids, asks := newBids, newAsks;
    }

    method ApplyToMirror(d: Delta)
      modifies this`bids, this`asks
      ensures Maps(bids, asks) == ApplyToMaps(old(Maps(bids, asks)), d)
    {
      if d.side.Bid? {
        bids := if d.qty == 0 then bids - {d.price} else bids[d.price := d.qty];
      } else {
        asks := if d.qty == 0 then asks - {d.price} else asks[d.price := d.qty];
      }
    }

    /** One pop of the loop below: skip, apply, or find the ring empty. */
    method CatchUpItem(floor: nat, expected: nat) returns (again: bool, next: nat)
      requires Valid() && sys.r.phase == Replication.CatchingUp(expected, floor) && expected >= 1
      modifies this`sys, this`bids, this`asks, this`reports
      ensures sys == Replication.Step(old(sys), Replication.CatchUp) && Maps(bids, asks) == sys.r.mirror
      ensures again <==> old(sys.q.items) != []
      ensures next >= 1 && old(reports) <= reports
      ensures again ==> sys.r.phase == Replication.CatchingUp(next, floor) && sys.r.expected == old(sys.r.expected)
      ensures again ==> |sys.q.items| < |old(sys.q.items)|
      ensures !again ==> sys.q.items == [] && sys.r.phase.Polling? && sys.r.expected == next
    {
      next := expected;
      again := sys.q.items != [];
      if again {
        var item := sys.q.items[0];
        if item.seqNo > floor {
          ApplyToMirror(item);
          reports := reports + [DeltaReport(item)];
          next := item.seqNo + 1;
        }
      }
      sys := Replication.StepCatchUp(sys);
    }

    /** One turn of the loop below, the engine going first. */
    method CatchUpOne(floor: nat, expected: nat) returns (again: bool, next: nat, ghost script: seq<Replication.Action>)
      requires Valid() && sys.r.phase == Replication.CatchingUp(expected, floor) && expected >= 1
      modifies this`sys, this`bids, this`asks, this`reports, this`bursts
      ensures Shared() && Maps(bids, asks) == sys.r.mirror && next >= 1 && old(reports) <= reports
      ensures again ==> expectedSeq == sys.r.expected && sys.r.phase == Replication.CatchingUp(next, floor)
      ensures again ==> |bursts| < |old(bursts)| || (|bursts| == |old(bursts)| && |sys.q.items| < |old(sys.q.items)|)
      ensures !again ==> sys.q.items == [] && sys.r.phase.Polling? && sys.r.expected == next
      ensures NoRegister(script) && sys == Replication.Run(old(sys), script)
    {
      script := Engine();
      Replication.RunSnoc(old(sys), script, Replication.CatchUp);
      script := script + [Replication.CatchUp];
      again, next := CatchUpItem(floor, expected);
    }

    /** Pop until the ring is empty, skipping what the snapshot covers. */
    method CatchUpFromSnapshot(floor: nat) returns (ghost script: seq<Replication.Action>)
      requires Valid() && sys.r.phase == Replication.CatchingUp(floor + 1, floor)
      modifies this
      ensures Valid() && sys.r.phase.Polling? && sys.q.items == [] && old(reports) <= reports
      ensures sys.r.expected >= 1
      ensures NoRegister(script) && sys == Replication.Run(old(sys), script)
    {
      script := [];
      var expected: nat, again := floor + 1, true;
      while again
        invariant Shared() && Maps(bids, asks) == sys.r.mirror && old(reports) <= reports && expected >= 1
        invariant again ==> expectedSeq == sys.r.expected && sys.r.phase == Replication.CatchingUp(expected, floor)
        invariant !again ==> sys.q.items == [] && sys.r.phase.Polling? && sys.r.expected == expected
        invariant NoRegister(script) && sys == Replication.Run(old(sys), script)
        decreases again, |bursts|, |sys.q.items|
      {
        ghost var sofar := script;
        again, expected, script := CatchUpOne(floor, expected);
        Replication.RunConcat(old(sys), sofar, script);
        script := sofar + script;
      }
      expectedSeq := expected;
    }

    /** The snapshot just read replaces the mirror if it is newer. */
    method Reread() returns (floor: nat)
      requires Valid() && sys.r.phase.Resyncing? && expectedSeq >= 1
      modifies this
      ensures Valid() && sys == Replication.Step(old(sys), Replication.ReadSnapshot)
      ensures sys.r.phase == Replication.CatchingUp(floor + 1, floor)
      ensures bursts == old(bursts) && reports == old(reports)
    {
      var snapshot := sys.slot.snapshot;
      floor := snapshot.seqNo;
      if snapshot.seqNo + 1 > expectedSeq {
        RebuildMirror(snapshot);
      } else {
        floor := expectedSeq - 1;
      }
      sys := sys.(r := Replication.Resynced(sys.r, sys.slot));
    }

    /** Read the snapshot slot (which can fail), then catch up and report the mirror. */
    method Resync(readOk: bool) returns (ghost script: seq<Replication.Action>)
      requires Valid() && sys.r.phase.Resyncing? && expectedSeq >= 1
      modifies this
      ensures Valid() && sys.r.phase.Polling? && expectedSeq >= 1
      ensures old(reports) <= reports && (!readOk ==> reports == old(reports))
      ensures readOk ==> sys.q.items == [] && old(reports) < reports
      ensures readOk ==> reports[|reports| - 1] == SnapshotReport(expectedSeq - 1, Maps(bids, asks))
      ensures Tells(old(reports), reports, old(Maps(bids, asks)), Maps(bids, asks))
      ensures NoRegister(script) && sys == Replication.Run(old(sys), script)
    {
      TellsNothing(reports, Maps(bids, asks));
      script := Engine();
      if !readOk {
        Replication.RunSnoc(old(sys), script, Replication.ReadFails);
        script := script + [Replication.ReadFails];
        sys := sys.(r := sys.r.(phase := Replication.Polling));
        return;
      }
      Replication.RunSnoc(old(sys), script, Replication.ReadSnapshot);
      ghost var read := script + [Replication.ReadSnapshot];
      var floor := Reread();
      script := CatchUpFromSnapshot(floor);
      Replication.RunConcat(old(sys), read, script);
      script := read + script;
      reports := reports + [SnapshotReport(expectedSeq - 1, Maps(bids, asks))];
      TellsSnapshot(old(reports), reports, old(Maps(bids, asks)), Maps(bids, asks));
    }

    /** One delta in sequence: apply and report it. */
    method Accept(item: Delta)
      modifies this`bids, this`asks, this`expectedSeq, this`reports
      ensures Maps(bids, asks) == ApplyToMaps(old(Maps(bids, asks)), item)
      ensures expectedSeq == item.seqNo + 1 && reports == old(reports) + [DeltaReport(item)]
    {
      ApplyToMirror(item);
      expectedSeq := item.seqNo + 1;
      reports := reports + [DeltaReport(item)];
    }

    /** One pop of the loop below: apply and report the next delta, or find a gap. */
    method PollItem() returns (gap: bool)
      requires Valid() && sys.r.phase.Polling? && sys.q.items != []
      modifies this`sys, this`bids, this`asks, this`reports, this`expectedSeq
      ensures Valid() && sys == Replication.Step(old(sys), Replication.Poll)
      ensures gap <==> old(sys.q.items)[0].seqNo != old(expectedSeq)
      ensures if gap then sys.r.phase.Resyncing? && expectedSeq == old(expectedSeq)
              else sys.r.phase.Polling? && expectedSeq >= 1 && |sys.q.items| < |old(sys.q.items)|
      ensures Tells(old(reports), reports, old(Maps(bids, asks)), Maps(bids, asks))
    {
      TellsNothing(reports, Maps(bids, asks));
      var item := sys.q.items[0];
      gap := item.seqNo != expectedSeq;
      sys := Replication.StepPoll(sys);
      if !gap {
        TellsDelta(reports, reports, Maps(bids, asks), Maps(bids, asks), item);
        Accept(item);
      }
    }

    /** One turn of the loop below, the engine going first. */
    method PollOne(readOk: bool) returns (again: bool, ghost script: seq<Replication.Action>)
      requires Valid() && sys.r.phase.Polling? && expectedSeq >= 1
      modifies this
      ensures Valid() && sys.r.phase.Polling? && expectedSeq >= 1
      ensures again ==> |bursts| < |old(bursts)| || (|bursts| == |old(bursts)| && |sys.q.items| < |old(sys.q.items)|)
      ensures !again && readOk ==> sys.q.items == []
      ensures NoRegister(script) && sys == Replication.Run(old(sys), script)
      ensures Tells(old(reports), reports, old(Maps(bids, asks)), Maps(bids, asks))
    {
      TellsNothing(reports, Maps(bids, asks));
      script := Engine();
      again := false;
      if sys.q.items == [] {
        return;
      }
      Replication.RunSnoc(old(sys), script, Replication.Poll);
      script := script + [Replication.Poll];
      var gap := PollItem();
      if !gap {
        again := true;
        return;
      }
      ghost var sofar, told, held := script, reports, Maps(bids, asks);
      script := Resync(readOk);
      Replication.RunConcat(old(sys), sofar, script);
      script := sofar + script;
      TellsMore(old(reports), told, reports, old(Maps(bids, asks)), held, Maps(bids, asks));
    }

    /** One poll: apply deltas while they come in sequence, resync at the first gap. */
    method PollSymbol(readOk: bool) returns (ghost script: seq<Replication.Action>)
      requires Valid() && sys.r.phase.Polling? && expectedSeq >= 1
      modifies this
      ensures Valid() && sys.r.phase.Polling? && expectedSeq >= 1
      ensures NoRegister(script) && sys == Replication.Run(old(sys), script)
      ensures readOk ==> sys.q.items == []
      ensures Tells(old(reports), reports, old(Maps(bids, asks)), Maps(bids, asks))
    {
      script := [];
      TellsNothing(reports, Maps(bids, asks));
      var again := true;
      while again
        invariant Valid() && sys.r.phase.Polling? && expectedSeq >= 1
        invariant !again && readOk ==> sys.q.items == []
        invariant NoRegister(script) && sys == Replication.Run(old(sys), script)
        invariant Tells(old(reports), reports, old(Maps(bids, asks)), Maps(bids, asks))
        decreases again, |bursts|, |sys.q.items|
      {
        ghost var sofar, told, held := script, reports, Maps(bids, asks);
        again, script := PollOne(readOk);
        Replication.RunConcat(old(sys), sofar, script);
        script := sofar + script;
        TellsMore(old(reports), told, reports, old(Maps(bids, asks)), held, Maps(bids, asks));
      }
    }
  }
}
