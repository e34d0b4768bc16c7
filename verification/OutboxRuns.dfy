/** Whole runs of the outbox: when the browser ends up with the mirror, and when it does not. */
module OutboxRuns {
  import opened OrderBook
  import opened BookStream
  import opened Outbox

  // ---------------------------------------------------------------- staying in line

  ghost predicate NobodyLetsGo(actions: seq<Action>, sym: Symbol) {
    forall i :: 0 <= i < |actions| ==> LeavesAlone(actions[i], sym)
  }

  /** At every point of the run. */
  ghost predicate AlwaysGood(s: Fan, actions: seq<Action>, sym: Symbol) {
    Good(Run(s, actions), sym) && (actions != [] ==> AlwaysGood(s, actions[..|actions| - 1], sym))
  }

  /** Whenever a collapse comes to queue the last snapshot of the symbol. */
  ghost predicate AlwaysPutsWell(s: Fan, actions: seq<Action>, sym: Symbol) {
    actions != [] ==>
      var pre, a := actions[..|actions| - 1], actions[|actions| - 1];
      AlwaysPutsWell(s, pre, sym) && PutsWell(Run(s, pre), a, sym)
  }

  lemma {:induction false} RunHolds(s: Fan, actions: seq<Action>, sym: Symbol)
    requires Held(s, sym) && NobodyLetsGo(actions, sym)
    ensures Held(Run(s, actions), sym)
    decreases |actions|
  {
    if actions != [] {
      var pre := actions[..|actions| - 1];
      RunHolds(s, pre, sym);
      StepHolds(Run(s, pre), actions[|actions| - 1], sym);
    }
  }

  /** From any state in which a ready symbol is in line, along any run that does not let go of
      it: it is in line whenever no collapse still has to reseed it and no resync snapshot is
      due, if and only if every collapse that reseeds it last finds room for a snapshot that
      the mirror has not left behind (or no room, and no need of it). */
  lemma {:induction false} InLineIff(s: Fan, actions: seq<Action>, sym: Symbol)
    requires Held(s, sym) && Good(s, sym) && NobodyLetsGo(actions, sym)
    ensures AlwaysGood(s, actions, sym) <==> AlwaysPutsWell(s, actions, sym)
    decreases |actions|
  {
    if actions != [] {
      var pre := actions[..|actions| - 1];
      InLineIff(s, pre, sym);
      RunHolds(s, pre, sym);
      if AlwaysGood(s, pre, sym) { StepGoodIff(Run(s, pre), actions[|actions| - 1], sym); }
    }
  }

  // ---------------------------------------------------------------- when only the poller collapses

  /** A poller's collapse has room for every snapshot it still has to queue. */
  predicate Roomy(s: Fan) {
    && s.sub.Idle?
    && (s.poll.Reseeding? ==> |s.outbox| + |s.poll.todo| <= OUTBOX_MAX)
    && (s.poll.Loaded? ==> |s.outbox| + |s.poll.todo| < OUTBOX_MAX)
  }

  /** At most 500 symbols, and seeds that find room and do not cut into a reseed. */
  predicate Gentle(s: Fan, a: Action) {
    && |s.symbols| <= OUTBOX_MAX
    && (a.Subscribe? && a.sym in s.mirrors ==> Room(s) && !s.poll.Reseeding? && !s.poll.Loaded?)
  }

  ghost predicate GentleRun(s: Fan, actions: seq<Action>) {
    actions != [] ==>
      var pre, a := actions[..|actions| - 1], actions[|actions| - 1];
      GentleRun(s, pre) && Gentle(Run(s, pre), a)
  }

  lemma GentleStep(s: Fan, a: Action, sym: Symbol)
    requires Roomy(s) && Gentle(s, a) && Held(s, sym)
    ensures Roomy(Step(s, a)) && PutsWell(s, a, sym)
  {
    if a.Load? && s.poll.Reseeding? && a.sym in s.poll.todo {
      assert |s.poll.todo - {a.sym}| == |s.poll.todo| - 1;
    }
  }

  lemma {:induction false} GentleRunPutsWell(s: Fan, actions: seq<Action>, sym: Symbol)
    requires Held(s, sym) && NobodyLetsGo(actions, sym) && Roomy(s) && GentleRun(s, actions)
    ensures Roomy(Run(s, actions)) && AlwaysPutsWell(s, actions, sym)
    decreases |actions|
  {
    if actions != [] {
      var pre := actions[..|actions| - 1];
      GentleRunPutsWell(s, pre, sym);
      RunHolds(s, pre, sym);
      GentleStep(Run(s, pre), actions[|actions| - 1], sym);
    }
  }

  /** With at most 500 symbols, as long as it is only the poller that collapses, a symbol in
      line stays in line through any number of overflows, drains, reseeds, resyncs and sends. */
  lemma ClientConverges(s: Fan, actions: seq<Action>, sym: Symbol)
    requires Held(s, sym) && Good(s, sym) && NobodyLetsGo(actions, sym) && Roomy(s) && GentleRun(s, actions)
    ensures AlwaysGood(s, actions, sym)
  {
    GentleRunPutsWell(s, actions, sym);
    InLineIff(s, actions, sym);
  }

  /** A reseed by the poller heals: whatever the browser held and whatever was lost before,
      the symbol is in line after it. */
  lemma PollerReseedHeals(s: Fan)
    requires s.poll.Loaded? && Held(s, s.poll.sym) && Room(s)
    ensures InLine(Step(s, Put(Poller)), s.poll.sym)
  {
    PutInLineIff(s, Poller);
  }

  // ---------------------------------------------------------------- seeding a new symbol

  predicate NoneFor(msgs: seq<Msg>, sym: Symbol) { forall i :: 0 <= i < |msgs| ==> msgs[i].symbol != sym }

  /** The symbol is pending, and no message for it is queued or about to be. */
  ghost predicate Unheard(s: Fan, sym: Symbol) {
    && sym in s.pending && NoneFor(s.outbox, sym)
    && !(s.poll.Loaded? && s.poll.sym == sym) && !(s.sub.Loaded? && s.sub.sym == sym)
  }

  /** Nothing concerns the symbol's subscription. */
  predicate LeavesPending(a: Action, sym: Symbol) {
    a != Subscribe(sym) && a != MarkReady(sym) && a != Unsubscribe(sym)
  }

  lemma UnheardEnqueue(s: Fan, who: Who, m: Msg, sym: Symbol)
    requires Unheard(s, sym) && m.symbol != sym
    ensures Unheard(Enqueue(s, who, m), sym) && View(Enqueue(s, who, m), sym) == View(s, sym)
  {
  }

  lemma UnheardJob(s: Fan, who: Who, a: Action, sym: Symbol)
    requires Unheard(s, sym) && (a == Drain(who) || a == Put(who) || (a.Load? && a.who == who))
    ensures Unheard(Step(s, a), sym) && View(Step(s, a), sym) == View(s, sym)
  {
  }

  lemma UnheardStep(s: Fan, a: Action, sym: Symbol)
    requires Unheard(s, sym) && LeavesPending(a, sym)
    ensures Unheard(Step(s, a), sym) && View(Step(s, a), sym) == View(s, sym)
  {
    match a
    case MirrorDelta(_, _) =>
    case Tell =>
      if s.poll.Telling? && Ready(s, s.poll.sym) {
        UnheardEnqueue(s, Poller, DeltaMsg(s.poll.sym, s.poll.delta), sym);
      }
    case MirrorRebuild(_, _) =>
    case EmitSnapshot(x) =>
      if s.poll.Idle? && x in s.mirrors && Ready(s, x) {
        UnheardEnqueue(s.(dirty := s.dirty - {x}), Poller, SnapshotOf(x, s.mirrors[x]), sym);
      }
    case Drain(who) => UnheardJob(s, who, a, sym);
    case Load(who, _) => UnheardJob(s, who, a, sym);
    case Put(who) => UnheardJob(s, who, a, sym);
    case Send =>
    case Subscribe(x) =>
      if s.sub.Idle? && x in s.mirrors {
        UnheardEnqueue(s.(symbols := s.symbols + {x}, pending := s.pending + {x}), Subscriber, SnapshotOf(x, s.mirrors[x]), sym);
      }
    case MarkReady(_) =>
    case Unsubscribe(_) =>
    case Unregister(_) =>
  }

  lemma {:induction false} UnheardRun(s: Fan, actions: seq<Action>, sym: Symbol)
    requires Unheard(s, sym) && forall i :: 0 <= i < |actions| ==> LeavesPending(actions[i], sym)
    ensures Unheard(Run(s, actions), sym) && View(Run(s, actions), sym) == View(s, sym)
    decreases |actions|
  {
    if actions != [] {
      var pre := actions[..|actions| - 1];
      UnheardRun(s, pre, sym);
      UnheardStep(Run(s, pre), actions[|actions| - 1], sym);
    }
  }

  lemma {:induction false} UnheardFinal(v: Maps, sym: Symbol, msgs: seq<Msg>)
    requires NoneFor(msgs, sym)
    ensures DeliverAll(v, sym, msgs) == v
    decreases |msgs|
  {
    if msgs != [] { UnheardFinal(v, sym, msgs[..|msgs| - 1]); }
  }

  /** Nothing of the symbol is queued and nobody is about to queue it. */
  ghost predicate Fresh(s: Fan, sym: Symbol) {
    && s.sub.Idle? && sym in s.mirrors && |s.outbox| <= OUTBOX_MAX
    && NoneFor(s.outbox, sym)
    && !(s.poll.Loaded? && s.poll.sym == sym) && !(s.poll.Telling? && s.poll.sym == sym)
  }

  /** Seeding a fresh symbol: with room the symbol is in line at once. With a full outbox the
      collapse skips the still-pending symbol and the seed is gone: however the run goes on,
      until the symbol is marked ready the browser gets nothing and keeps what it had, so
      that it ends with the mirror if and only if it held it already. */
  lemma SeedSurvivesIffRoom(s: Fan, sym: Symbol, actions: seq<Action>)
    requires Fresh(s, sym) && forall i :: 0 <= i < |actions| ==> LeavesPending(actions[i], sym)
    ensures Room(s) ==> InLine(Step(s, Subscribe(sym)), sym)
    ensures !Room(s) ==>
      var t := Run(Step(s, Subscribe(sym)), actions);
      Final(t, sym) == View(s, sym)
  {
    var s' := Step(s, Subscribe(sym));
    if Room(s) {
      AppendMovesOne(s, s', SnapshotOf(sym, s.mirrors[sym]), sym);
      SnapshotBringsInLine(Final(s, sym), sym, s.mirrors[sym]);
    } else {
      UnheardRun(s', actions, sym);
      var t := Run(s', actions);
      UnheardFinal(View(t, sym), sym, t.outbox);
    }
  }
}
