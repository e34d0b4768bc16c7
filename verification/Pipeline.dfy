/** The whole way from the engine's book to the browser: the replication of one symbol and the
    outbox of one client run as one system, the reader's steps moving the outbox's mirror. */
module Pipeline {
  import opened OrderBook
  import opened BookStream
  import opened BookClient
  import Replication
  import ReplicationRuns
  import Outbox
  import OutboxRuns

  datatype Joint = Joint(sys: Replication.Sys, fan: Outbox.Fan)

  datatype Move = Replicate(a: Replication.Action) | FanOut(b: Outbox.Action)

  predicate IsReaderStep(a: Replication.Action) {
    a.Register? || a.Poll? || a.ReadSnapshot? || a.ReadFails? || a.CatchUp?
  }

  /** What a step of the reader does to the mirror, as the outbox sees it: apply and report a
      delta, replace the mirror, or report the mirror at the end of catching up. */
  function Effect(s: Replication.Sys, a: Replication.Action, sym: Outbox.Symbol): seq<Outbox.Action> {
    match a
    case Register => if s.r.phase.Unregistered? then [Outbox.MirrorRebuild(sym, Baseline(s))] else []
    case Poll =>
      if s.r.phase.Polling? && s.q.items != [] && s.q.items[0].seqNo == s.r.expected
      then [Outbox.MirrorDelta(sym, s.q.items[0])] else []
    case ReadSnapshot =>
      if s.r.phase.Resyncing? && s.slot.snapshot.seqNo + 1 > s.r.expected
      then [Outbox.MirrorRebuild(sym, Baseline(s))] else []
    case CatchUp =>
      if !s.r.phase.CatchingUp? then []
      else if s.q.items == [] then [Outbox.EmitSnapshot(sym)]
      else if s.q.items[0].seqNo > s.r.phase.floor then [Outbox.MirrorDelta(sym, s.q.items[0])] else []
    case _ => []
  }

  function Baseline(s: Replication.Sys): Maps { MapsOf(s.slot.snapshot.bids, s.slot.snapshot.asks) }

  /** The other steps of the outbox: all that leave this symbol's mirror alone. */
  predicate LeavesMirror(a: Outbox.Action, sym: Outbox.Symbol) {
    && !((a.MirrorDelta? || a.MirrorRebuild? || a.EmitSnapshot?) && a.sym == sym)
    && a != Outbox.Unregister(sym)
  }

  /** The reader runs on the poller's goroutine: it waits while that reports or collapses. */
  function Step(j: Joint, move: Move, sym: Outbox.Symbol): Joint {
    match move
    case Replicate(a) =>
      if IsReaderStep(a) && !j.fan.poll.Idle? then j
      else Joint(Replication.Step(j.sys, a), Outbox.Run(j.fan, Effect(j.sys, a, sym)))
    case FanOut(b) => if LeavesMirror(b, sym) then j.(fan := Outbox.Step(j.fan, b)) else j
  }

  function Init(): Joint { Joint(Replication.Init(), Outbox.Init()) }

  function Run(j: Joint, moves: seq<Move>, sym: Outbox.Symbol): Joint {
    if moves == [] then j else Step(Run(j, moves[..|moves| - 1], sym), moves[|moves| - 1], sym)
  }

  // ---------------------------------------------------------------- the halves are runs of their own

  predicate Waits(j: Joint, move: Move) { move.Replicate? && IsReaderStep(move.a) && !j.fan.poll.Idle? }

  /** What the replication did in a run of the joint system. */
  function SysScript(j: Joint, moves: seq<Move>, sym: Outbox.Symbol): seq<Replication.Action> {
    if moves == [] then []
    else
      var pre, move := moves[..|moves| - 1], moves[|moves| - 1];
      SysScript(j, pre, sym) + if move.Replicate? && !Waits(Run(j, pre, sym), move) then [move.a] else []
  }

  /** What the outbox did. */
  function FanScript(j: Joint, moves: seq<Move>, sym: Outbox.Symbol): seq<Outbox.Action> {
    if moves == [] then []
    else
      var pre, move := moves[..|moves| - 1], moves[|moves| - 1];
      FanScript(j, pre, sym) + FanSteps(Run(j, pre, sym), move, sym)
  }

  function FanSteps(j: Joint, move: Move, sym: Outbox.Symbol): seq<Outbox.Action> {
    match move
    case Replicate(a) => if Waits(j, move) then [] else Effect(j.sys, a, sym)
    case FanOut(b) => if LeavesMirror(b, sym) then [b] else []
  }

  lemma {:induction false} RunProjects(j: Joint, moves: seq<Move>, sym: Outbox.Symbol)
    ensures Run(j, moves, sym).sys == Replication.Run(j.sys, SysScript(j, moves, sym))
    ensures Run(j, moves, sym).fan == Outbox.Run(j.fan, FanScript(j, moves, sym))
    decreases |moves|
  {
    if moves != [] {
      var pre, move := moves[..|moves| - 1], moves[|moves| - 1];
      RunProjects(j, pre, sym);
      StepProjects(j, pre, move, sym);
    }
  }

  lemma StepProjects(j: Joint, pre: seq<Move>, move: Move, sym: Outbox.Symbol)
    requires Run(j, pre, sym).sys == Replication.Run(j.sys, SysScript(j, pre, sym))
    requires Run(j, pre, sym).fan == Outbox.Run(j.fan, FanScript(j, pre, sym))
    ensures var mid := Run(j, pre, sym);
      && Step(mid, move, sym).sys == Replication.Run(j.sys, SysScript(j, pre, sym)
                                       + if move.Replicate? && !Waits(mid, move) then [move.a] else [])
      && Step(mid, move, sym).fan == Outbox.Run(j.fan, FanScript(j, pre, sym) + FanSteps(mid, move, sym))
  {
    var mid := Run(j, pre, sym);
    Outbox.RunConcat(j.fan, FanScript(j, pre, sym), FanSteps(mid, move, sym));
    match move
    case Replicate(a) =>
      if Waits(mid, move) {
        assert SysScript(j, pre, sym) + [] == SysScript(j, pre, sym);
      } else {
        Replication.RunSnoc(j.sys, SysScript(j, pre, sym), a);
      }
    case FanOut(b) =>
      assert SysScript(j, pre, sym) + [] == SysScript(j, pre, sym);
      if LeavesMirror(b, sym) { RunOne(mid.fan, b); }
  }

  // ---------------------------------------------------------------- one mirror

  /** The outbox's mirror of the symbol is the reader's. */
  predicate OneMirror(j: Joint, sym: Outbox.Symbol) {
    && (sym in j.fan.mirrors <==> !j.sys.r.phase.Unregistered?)
    && (sym in j.fan.mirrors ==> j.fan.mirrors[sym] == j.sys.r.mirror)
  }

  lemma RunOne(s: Outbox.Fan, a: Outbox.Action)
    ensures Outbox.Run(s, [a]) == Outbox.Step(s, a)
  {
    assert [a][..0] == [];
  }

  lemma ReaderKeepsOneMirror(j: Joint, a: Replication.Action, sym: Outbox.Symbol)
    requires OneMirror(j, sym) && (IsReaderStep(a) ==> j.fan.poll.Idle?)
    ensures OneMirror(Step(j, Replicate(a), sym), sym)
  {
    var effect := Effect(j.sys, a, sym);
    if effect != [] { RunOne(j.fan, effect[0]); }
  }

  lemma FanOutKeepsMirror(s: Outbox.Fan, a: Outbox.Action, sym: Outbox.Symbol)
    requires LeavesMirror(a, sym)
    ensures sym in Outbox.Step(s, a).mirrors <==> sym in s.mirrors
    ensures sym in s.mirrors ==> Outbox.Step(s, a).mirrors[sym] == s.mirrors[sym]
  {
  }

  lemma {:induction false} RunKeepsOneMirror(j: Joint, moves: seq<Move>, sym: Outbox.Symbol)
    requires OneMirror(j, sym)
    ensures OneMirror(Run(j, moves, sym), sym)
    decreases |moves|
  {
    if moves != [] {
      var mid, move := Run(j, moves[..|moves| - 1], sym), moves[|moves| - 1];
      RunKeepsOneMirror(j, moves[..|moves| - 1], sym);
      match move
      case Replicate(a) => if !Waits(mid, move) { ReaderKeepsOneMirror(mid, a, sym); }
      case FanOut(b) => if LeavesMirror(b, sym) { FanOutKeepsMirror(mid.fan, b, sym); }
    }
  }

  // ---------------------------------------------------------------- end to end

  /** The reader is drained without a jump, the newest delta reached it, and no clear of a
      non-empty book followed its baseline. */
  predicate UpToDate(s: Replication.Sys) {
    ReplicationRuns.Drained(s) && s.r.jumps == 0 && ReplicationRuns.NewestArrived(s) && s.r.baseCut == s.w.cut
  }

  /** In every run of the joint system: when the reader is up to date and the poller has
      nothing left to report, what the browser holds once its outbox is delivered is exactly
      the engine's two sides if and only if the symbol is in line. */
  lemma BrowserHoldsTheBookIff(moves: seq<Move>, sym: Outbox.Symbol)
    requires var j := Run(Init(), moves, sym); UpToDate(j.sys) && j.fan.poll.Idle?
    ensures var j := Run(Init(), moves, sym);
      Outbox.Final(j.fan, sym) == EngineMaps(j.sys.w.engine) <==> Outbox.InLine(j.fan, sym)
  {
    RunProjects(Init(), moves, sym);
    RunKeepsOneMirror(Init(), moves, sym);
    ReplicationRuns.DrainedMirrorIsTheBook(SysScript(Init(), moves, sym));
  }

  lemma {:induction false} RunConcat(j: Joint, a: seq<Move>, b: seq<Move>, sym: Outbox.Symbol)
    ensures Run(j, a + b, sym) == Run(Run(j, a, sym), b, sym)
    decreases |b|
  {
    if b == [] {
      assert a + b == a;
    } else {
      RunConcat(j, a, b[..|b| - 1], sym);
      assert (a + b)[..|a + b| - 1] == a + b[..|b| - 1];
    }
  }

  /** From the engine to the screen: once a ready symbol is in line, then after any further run
      in which nobody lets go of it and only the poller collapses, through any drops, gaps,
      resyncs and overflows, whenever the reader is up to date and nothing is in progress,
      delivering the outbox leaves the browser with exactly the engine's two sides. */
  lemma BrowserHoldsTheBook(before: seq<Move>, after: seq<Move>, sym: Outbox.Symbol)
    requires var j := Run(Init(), before, sym);
      && Outbox.Held(j.fan, sym) && Outbox.Good(j.fan, sym) && OutboxRuns.Roomy(j.fan)
      && OutboxRuns.NobodyLetsGo(FanScript(j, after, sym), sym)
      && OutboxRuns.GentleRun(j.fan, FanScript(j, after, sym))
    requires var t := Run(Init(), before + after, sym);
      UpToDate(t.sys) && t.fan.poll.Idle? && t.fan.sub.Idle? && sym !in t.fan.dirty
    ensures var t := Run(Init(), before + after, sym);
      Outbox.Final(t.fan, sym) == EngineMaps(t.sys.w.engine)
  {
    var j := Run(Init(), before, sym);
    RunConcat(Init(), before, after, sym);
    RunProjects(j, after, sym);
    OutboxRuns.ClientConverges(j.fan, FanScript(j, after, sym), sym);
    BrowserHoldsTheBookIff(before + after, sym);
  }
}
