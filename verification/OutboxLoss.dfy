/** Runs from the start in which a browser does not end up with the mirror: a client whose
    outbox is full subscribes to a second symbol, and so collapses beside the poller. */
module OutboxLoss {
  import opened OrderBook
  import opened BookStream
  import opened Outbox
  import opened OutboxRuns

  const ONE: Maps := Maps(map[7 := 1], map[])
  const NUDGE: Delta := Delta(1, Bid, 7, 1)
  const LATE: Delta := Delta(2, Bid, 8, 1)

  /** A client of symbol A that has n messages waiting, while B has a mirror too. */
  ghost predicate Waiting(s: Fan, n: nat) {
    && s.poll.Idle? && s.sub.Idle? && s.dirty == {}
    && s.mirrors.Keys == {"A", "B"} && s.mirrors["B"] == ONE && (n > 1 ==> s.mirrors["A"] == ONE)
    && (s.mirrors["A"] == EMPTY || s.mirrors["A"] == ONE)
    && s.symbols == {"A"} && s.pending == {} && "B" !in s.views
    && |s.outbox| == n && NoneFor(s.outbox, "B") && Final(s, "A") == s.mirrors["A"]
  }

  function RegisterScript(): seq<Action> {
    [] + [MirrorRebuild("A", EMPTY)] + [EmitSnapshot("A")] + [MirrorRebuild("B", ONE)] + [EmitSnapshot("B")]
  }

  function Registered(): Fan { Init().(mirrors := map["A" := EMPTY, "B" := ONE]) }

  lemma RegisterRun()
    ensures Run(Init(), RegisterScript()) == Registered()
  {
    var a1 := [] + [MirrorRebuild("A", EMPTY)];
    var a2 := a1 + [EmitSnapshot("A")];
    var a3 := a2 + [MirrorRebuild("B", ONE)];
    RunSnoc(Init(), [], MirrorRebuild("A", EMPTY));
    RunSnoc(Init(), a1, EmitSnapshot("A"));
    RunSnoc(Init(), a2, MirrorRebuild("B", ONE));
    RunSnoc(Init(), a3, EmitSnapshot("B"));
    assert Run(Init(), a3).mirrors == map["A" := EMPTY, "B" := ONE];
  }

  function StartScript(): seq<Action> { RegisterScript() + [Subscribe("A")] + [MarkReady("A")] }

  lemma FirstClient()
    ensures Waiting(Step(Step(Registered(), Subscribe("A")), MarkReady("A")), 1)
  {
    var s := Registered();
    AppendMovesOne(s, Step(s, Subscribe("A")), SnapshotOf("A", EMPTY), "A");
    SnapshotBringsInLine(Final(s, "A"), "A", EMPTY);
  }

  lemma StartRun()
    ensures Waiting(Run(Init(), StartScript()), 1)
  {
    RegisterRun();
    RunSnoc(Init(), RegisterScript(), Subscribe("A"));
    RunSnoc(Init(), RegisterScript() + [Subscribe("A")], MarkReady("A"));
    FirstClient();
  }

  // ---------------------------------------------------------------- filling the outbox

  lemma NudgeOnce(s: Fan, n: nat)
    requires Waiting(s, n) && 0 < n < OUTBOX_MAX
    ensures Waiting(Step(Step(s, MirrorDelta("A", NUDGE)), Tell), n + 1)
  {
    assert EMPTY.bids[7 := 1] == ONE.bids && ONE.bids[7 := 1] == ONE.bids;
    AppendMovesOne(s, Step(Step(s, MirrorDelta("A", NUDGE)), Tell), DeltaMsg("A", NUDGE), "A");
  }

  function FillScript(n: nat): seq<Action>
    requires n > 0
  {
    if n == 1 then StartScript() else FillScript(n - 1) + [MirrorDelta("A", NUDGE)] + [Tell]
  }

  lemma {:induction false} FillRun(n: nat)
    requires 0 < n <= OUTBOX_MAX
    ensures Waiting(Run(Init(), FillScript(n)), n)
    decreases n
  {
    if n == 1 {
      StartRun();
    } else {
      FillRun(n - 1);
      NudgeOnce(Run(Init(), FillScript(n - 1)), n - 1);
      RunSnoc(Init(), FillScript(n - 1), MirrorDelta("A", NUDGE));
      RunSnoc(Init(), FillScript(n - 1) + [MirrorDelta("A", NUDGE)], Tell);
    }
  }

  // ---------------------------------------------------------------- the subscriber's collapse

  function Drains(n: nat): seq<Action> { if n == 0 then [] else Drains(n - 1) + [Drain(Subscriber)] }

  lemma {:induction false} DrainsAre(n: nat)
    ensures |Drains(n)| == n && forall i :: 0 <= i < n ==> Drains(n)[i] == Drain(Subscriber)
    decreases n
  {
    if n > 0 { DrainsAre(n - 1); }
  }

  lemma {:induction false} DrainRun(s: Fan, n: nat)
    requires s.sub.Draining? && n <= |s.outbox|
    ensures Run(s, Drains(n)) == s.(outbox := s.outbox[n..])
    decreases n
  {
    if n > 0 {
      DrainRun(s, n - 1);
      RunSnoc(s, Drains(n - 1), Drain(Subscriber));
      assert s.outbox[n - 1..][1..] == s.outbox[n..];
    } else {
      assert s.outbox[0..] == s.outbox;
    }
  }

  function Drained(s: Fan): Fan {
    s.(outbox := [], symbols := {"A", "B"}, pending := {"B"}, sub := Reseeding({"A", "B"}))
  }

  lemma CollapseStarts(s: Fan, n: nat)
    requires Waiting(s, n) && n == OUTBOX_MAX
    ensures Run(Step(s, Subscribe("B")), Drains(n) + [Drain(Subscriber)]) == Drained(s)
  {
    var s' := Step(s, Subscribe("B"));
    assert s'.symbols == {"A", "B"} && s'.pending == {"B"};
    DrainRun(s', n);
    RunSnoc(s', Drains(n), Drain(Subscriber));
  }

  /** The client subscribes to B and drains its full outbox. */
  function CollapseBy(n: nat): seq<Action> { [Subscribe("B")] + (Drains(n) + [Drain(Subscriber)]) }

  lemma CollapseByRun(s: Fan, n: nat)
    requires Waiting(s, n) && n == OUTBOX_MAX
    ensures Run(s, CollapseBy(n)) == Drained(s)
  {
    RunSnoc(s, [], Subscribe("B"));
    assert [] + [Subscribe("B")] == [Subscribe("B")];
    RunConcat(s, [Subscribe("B")], Drains(n) + [Drain(Subscriber)]);
    CollapseStarts(s, n);
  }

  // ---------------------------------------------------------------- a delta overtaken by a snapshot

  /** The subscriber loads A, the poller applies and reports a delta of A, the subscriber
      queues what it loaded and skips the pending B. */
  function Overtaken(s: Fan): Fan {
    Step(Step(Step(Step(Step(s, Load(Subscriber, "A")), MirrorDelta("A", LATE)), Tell), Put(Subscriber)), Load(Subscriber, "B"))
  }

  function OvertakeScript(): seq<Action> {
    [] + [Load(Subscriber, "A")] + [MirrorDelta("A", LATE)] + [Tell] + [Put(Subscriber)] + [Load(Subscriber, "B")]
  }

  lemma OvertakeSteps(s: Fan)
    ensures Run(s, OvertakeScript()) == Overtaken(s)
  {
    var a1 := [] + [Load(Subscriber, "A")];
    var a2 := a1 + [MirrorDelta("A", LATE)];
    var a3 := a2 + [Tell];
    RunSnoc(s, [], Load(Subscriber, "A"));
    RunSnoc(s, a1, MirrorDelta("A", LATE));
    RunSnoc(s, a2, Tell);
    RunSnoc(s, a3, Put(Subscriber));
    RunSnoc(s, a3 + [Put(Subscriber)], Load(Subscriber, "B"));
  }

  /** Nothing is going on, the symbol is ready, and its browser will not have the mirror. */
  ghost predicate LeftBehind(s: Fan, sym: Symbol) {
    s.poll.Idle? && s.sub.Idle? && sym !in s.dirty && Ready(s, sym) && sym in s.mirrors && Final(s, sym) != s.mirrors[sym]
  }

  /** The symbol is ready and in line, nobody lets go of it, and it is left behind. */
  ghost predicate FallsBehind(s: Fan, actions: seq<Action>, sym: Symbol) {
    Held(s, sym) && InLine(s, sym) && NobodyLetsGo(actions, sym) && LeftBehind(Run(s, actions), sym)
  }

  lemma BeforeThePut(s: Fan, n: nat)
    requires Waiting(s, n) && n == OUTBOX_MAX
    ensures var t := Step(Step(Step(Drained(s), Load(Subscriber, "A")), MirrorDelta("A", LATE)), Tell);
      && t.poll.Idle? && t.sub == Loaded("A", ONE, {"B"}) && t.dirty == {} && Room(t)
      && t.symbols == {"A", "B"} && t.pending == {"B"}
      && "A" in t.mirrors && t.mirrors["A"] == ApplyToMaps(ONE, LATE)
  {
    assert {"A", "B"} - {"A"} == {"B"};
  }

  lemma AfterThePut(t: Fan)
    requires t.poll.Idle? && t.sub == Loaded("A", ONE, {"B"}) && t.dirty == {} && Room(t)
    requires t.symbols == {"A", "B"} && t.pending == {"B"}
    requires "A" in t.mirrors && t.mirrors["A"] == ApplyToMaps(ONE, LATE)
    ensures LeftBehind(Step(Step(t, Put(Subscriber)), Load(Subscriber, "B")), "A")
  {
    PutInLineIff(t, Subscriber);
    assert 8 in ApplyToMaps(ONE, LATE).bids && 8 !in ONE.bids;
    assert {"B"} - {"B"} == {};
  }

  lemma OvertakeLeavesBehind(s: Fan, n: nat)
    requires Waiting(s, n) && n == OUTBOX_MAX
    ensures LeftBehind(Overtaken(Drained(s)), "A")
  {
    BeforeThePut(s, n);
    AfterThePut(Step(Step(Step(Drained(s), Load(Subscriber, "A")), MirrorDelta("A", LATE)), Tell));
  }

  lemma NobodyLetsGoOfA(n: nat)
    ensures NobodyLetsGo(CollapseBy(n) + OvertakeScript(), "A")
  {
    DrainsAre(n);
  }

  lemma OvertakeRun(n: nat, before: seq<Action>, after: seq<Action>)
    requires n == OUTBOX_MAX && before == FillScript(n) && after == CollapseBy(n) + OvertakeScript()
    ensures FallsBehind(Run(Init(), before), after, "A")
  {
    FillRun(n);
    var s := Run(Init(), before);
    CollapseByRun(s, n);
    OvertakeSteps(Drained(s));
    OvertakeLeavesBehind(s, n);
    NobodyLetsGoOfA(n);
    RunConcat(s, CollapseBy(n), OvertakeScript());
  }

  /** It does happen: A is ready and in line, nobody lets go of it, and after the collapse that
      subscribing to B sets off, its browser is left behind. */
  lemma ReadySymbolCanFallBehind()
    ensures exists before, after :: FallsBehind(Run(Init(), before), after, "A")
  {
    OvertakeRun(OUTBOX_MAX, FillScript(OUTBOX_MAX), CollapseBy(OUTBOX_MAX) + OvertakeScript());
  }

  // ---------------------------------------------------------------- a seed that is lost

  function SeedScript(): seq<Action> {
    [] + [Load(Subscriber, "A")] + [Put(Subscriber)] + [Load(Subscriber, "B")]
  }

  lemma SeedCollapseEnds(s: Fan, n: nat)
    requires Waiting(s, n) && n == OUTBOX_MAX
    ensures var t := Run(Drained(s), SeedScript());
      t.poll.Idle? && t.sub.Idle? && t.dirty == {} && t.symbols == {"A", "B"} && t.mirrors == s.mirrors
      && t.pending == {"B"}
  {
    var a1 := [] + [Load(Subscriber, "A")];
    RunSnoc(Drained(s), [], Load(Subscriber, "A"));
    RunSnoc(Drained(s), a1, Put(Subscriber));
    RunSnoc(Drained(s), a1 + [Put(Subscriber)], Load(Subscriber, "B"));
    assert {"A", "B"} - {"A"} == {"B"} && {"B"} - {"B"} == {};
  }

  lemma SeedIsGone(s: Fan, n: nat)
    requires Waiting(s, n) && n == OUTBOX_MAX
    ensures Final(Run(Drained(s), SeedScript()), "B") == EMPTY
  {
    var collapse := (Drains(n) + [Drain(Subscriber)]) + SeedScript();
    DrainsAre(n);
    CollapseStarts(s, n);
    SeedSurvivesIffRoom(s, "B", collapse);
    RunConcat(Step(s, Subscribe("B")), Drains(n) + [Drain(Subscriber)], SeedScript());
  }

  lemma SeedLossRun(n: nat, before: seq<Action>)
    requires n == OUTBOX_MAX && before == FillScript(n)
    ensures LeftBehind(Run(Run(Init(), before), CollapseBy(n) + SeedScript() + [MarkReady("B")]), "B")
  {
    FillRun(n);
    var s := Run(Init(), before);
    CollapseByRun(s, n);
    SeedCollapseEnds(s, n);
    SeedIsGone(s, n);
    RunConcat(s, CollapseBy(n), SeedScript());
    RunSnoc(s, CollapseBy(n) + SeedScript(), MarkReady("B"));
    assert 7 in ONE.bids && 7 !in EMPTY.bids;
  }

  /** It does happen: the collapse runs to its end, B is marked ready, and what the browser
      will hold of B is not its mirror. */
  lemma SeedCanBeLost()
    ensures exists before, after :: LeftBehind(Run(Run(Init(), before), after), "B")
  {
    SeedLossRun(OUTBOX_MAX, FillScript(OUTBOX_MAX));
  }
}
