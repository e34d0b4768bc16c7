/** One client connection's outbox as the code handles it. Each method carries the script of
    steps that happened while it ran, its own and the other goroutines', so that it is one
    run of the outbox's step system. */
module ClientStateImpl {
  import opened OrderBook
  import opened BookStream
  import opened Levels
  import opened Outbox

  /** A step of the goroutine that is inside Enqueue. */
  predicate Own(who: Who, a: Action) {
    match a
    case Drain(w) => w == who
    case Load(w, _) => w == who
    case Put(w) => w == who
    case Subscribe(_) => who.Subscriber?
    case MarkReady(_) => who.Subscriber?
    case Unsubscribe(_) => who.Subscriber?
    case MirrorDelta(_, _) => who.Poller?
    case Tell => who.Poller?
    case MirrorRebuild(_, _) => who.Poller?
    case EmitSnapshot(_) => who.Poller?
    case Send => false
    case Unregister(_) => false
  }

  predicate Foreign(who: Who, script: seq<Action>) {
    forall i :: 0 <= i < |script| ==> !Own(who, script[i])
  }

  /** Of its own, the goroutine does nothing but the steps of a collapse. */
  predicate OnlyCollapses(who: Who, script: seq<Action>) {
    forall i :: 0 <= i < |script| ==> Own(who, script[i]) ==> script[i].Drain? || script[i].Load? || script[i].Put?
  }

  lemma {:induction false} OthersLeaveJob(s: Fan, who: Who, script: seq<Action>)
    requires Foreign(who, script)
    ensures JobOf(Run(s, script), who) == JobOf(s, who)
    decreases |script|
  {
    if script != [] { OthersLeaveJob(s, who, script[..|script| - 1]); }
  }

  /** In the second half of a collapse, or done with it. */
  predicate Working(job: Job) { job.Idle? || job.Loaded? || (job.Reseeding? && job.todo != {}) }

  function Left(job: Job): nat {
    match job
    case Reseeding(todo) => 2 * |todo|
    case Loaded(_, _, todo) => 2 * |todo| + 1
    case _ => 0
  }

  lemma OneLess(todo: set<Symbol>, sym: Symbol)
    requires sym in todo
    ensures |todo - {sym}| == |todo| - 1
  {
  }

  class ClientState {
    /** Everything the goroutines share. */
    var fan: Fan
    /** What the others will do between any two steps of the one inside, burst by burst. */
    var bursts: seq<seq<Action>>

    predicate Valid(who: Who) reads this { forall i :: 0 <= i < |bursts| ==> Foreign(who, bursts[i]) }

    constructor (start: Fan, others: seq<seq<Action>>)
      ensures fan == start && bursts == others
    {
      fan, bursts := start, others;
    }

    /** The other goroutines get a turn. */
    method Others(who: Who) returns (ghost script: seq<Action>)
      requires Valid(who)
      modifies this
      ensures Valid(who) && Foreign(who, script) && fan == Run(old(fan), script)
      ensures JobOf(fan, who) == JobOf(old(fan), who)
      ensures if old(bursts) == [] then bursts == [] && fan == old(fan) else bursts == old(bursts)[1..]
    {
      script := [];
      if bursts != [] {
        script := bursts[0];
        OthersLeaveJob(fan, who, bursts[0]);
        fan := Run(fan, bursts[0]);
        bursts := bursts[1..];
      }
    }

    /** Queue a message, or collapse the outbox into one snapshot per ready symbol. */
    method EnqueueMessage(who: Who, message: Msg) returns (ghost script: seq<Action>)
      requires Valid(who)
      modifies this
      ensures Valid(who) && JobOf(fan, who).Idle?
      ensures OnlyCollapses(who, script) && fan == Run(Enqueue(old(fan), who, message), script)
      ensures Room(old(fan)) ==> script == []
    {
      script := [];
      if |fan.outbox| < OUTBOX_MAX {
        fan := WithJob(fan.(outbox := fan.outbox + [message]), who, Idle);
      } else {
        fan := WithJob(fan, who, Draining);
        script := CollapseAndResync(who);
      }
    }

    /** Take one message out; an empty outbox ends the draining. */
    method DrainOne(who: Who) returns (again: bool, ghost script: seq<Action>)
      requires Valid(who) && JobOf(fan, who).Draining?
      modifies this
      ensures Valid(who) && OnlyCollapses(who, script) && fan == Run(old(fan), script)
      ensures if again then JobOf(fan, who).Draining? else Working(JobOf(fan, who))
      ensures again ==> |bursts| < |old(bursts)| || (|bursts| == |old(bursts)| && |fan.outbox| < |old(fan.outbox)|)
    {
      script := Others(who);
      RunSnoc(old(fan), script, Drain(who));
      script := script + [Drain(who)];
      again := fan.outbox != [];
      if again {
        fan := fan.(outbox := fan.outbox[1..]);
      } else {
        fan := WithJob(fan, who, Next(fan.symbols));
      }
    }

    method DrainAll(who: Who) returns (ghost script: seq<Action>)
      requires Valid(who) && JobOf(fan, who).Draining?
      modifies this
      ensures Valid(who) && OnlyCollapses(who, script) && fan == Run(old(fan), script)
      ensures Working(JobOf(fan, who))
    {
      script := [];
      var again := true;
      while again
        invariant Valid(who) && OnlyCollapses(who, script) && fan == Run(old(fan), script)
        invariant if again then JobOf(fan, who).Draining? else Working(JobOf(fan, who))
        decreases again, |bursts|, |fan.outbox|
      {
        ghost var sofar := script;
        again, script := DrainOne(who);
        RunConcat(old(fan), sofar, script);
        script := sofar + script;
      }
    }

    /** Load the mirror of the next symbol, unless it is pending or has none. */
    method LoadNow(who: Who) returns (sym: Symbol)
      requires JobOf(fan, who).Reseeding? && JobOf(fan, who).todo != {}
      modifies this`fan
      ensures fan == Step(old(fan), Load(who, sym))
      ensures Working(JobOf(fan, who)) && Left(JobOf(fan, who)) < Left(JobOf(old(fan), who))
    {
      var todo := JobOf(fan, who).todo;
      sym :| sym in todo;
      OneLess(todo, sym);
      if sym in fan.symbols && sym !in fan.pending && sym in fan.mirrors {
        fan := WithJob(fan, who, Loaded(sym, fan.mirrors[sym], todo - {sym}));
      } else {
        fan := WithJob(fan, who, Next(todo - {sym}));
      }
    }

    method LoadOne(who: Who) returns (ghost script: seq<Action>)
      requires Valid(who) && JobOf(fan, who).Reseeding? && JobOf(fan, who).todo != {}
      modifies this
      ensures Valid(who) && OnlyCollapses(who, script) && fan == Run(old(fan), script)
      ensures Working(JobOf(fan, who)) && Left(JobOf(fan, who)) < Left(JobOf(old(fan), who))
    {
      script := Others(who);
      var sym := LoadNow(who);
      RunSnoc(old(fan), script, Load(who, sym));
      script := script + [Load(who, sym)];
    }

    /** Queue the loaded snapshot if there is room. */
    method PutOne(who: Who) returns (ghost script: seq<Action>)
      requires Valid(who) && JobOf(fan, who).Loaded?
      modifies this
      ensures Valid(who) && OnlyCollapses(who, script) && fan == Run(old(fan), script)
      ensures JobOf(fan, who) == Next(JobOf(old(fan), who).todo)
    {
      script := Others(who);
      RunSnoc(old(fan), script, Put(who));
      script := script + [Put(who)];
      var job := JobOf(fan, who);
      if |fan.outbox| < OUTBOX_MAX {
        var message := MakeSnapshot(job.sym, job.maps);
        fan := fan.(outbox := fan.outbox + [message]);
      }
      fan := WithJob(fan, who, Next(job.todo));
    }

    method MakeSnapshot(sym: Symbol, m: Maps) returns (message: Msg)
      ensures message == SnapshotOf(sym, m)
    {
      var bids := SortLevels(Bid, m.bids);
      var asks := SortLevels(Ask, m.asks);
      LevelsAreUnique(Bid, m.bids, bids);
      LevelsAreUnique(Ask, m.asks, asks);
      return SnapshotMsg(sym, bids, asks);
    }

    /** Drain the outbox, then reseed every symbol subscribed at that point. */
    method CollapseAndResync(who: Who) returns (ghost script: seq<Action>)
      requires Valid(who) && JobOf(fan, who).Draining?
      modifies this
      ensures Valid(who) && JobOf(fan, who).Idle?
      ensures OnlyCollapses(who, script) && fan == Run(old(fan), script)
    {
      script := DrainAll(who);
      while !JobOf(fan, who).Idle?
        invariant Valid(who) && OnlyCollapses(who, script) && fan == Run(old(fan), script)
        invariant Working(JobOf(fan, who))
        decreases Left(JobOf(fan, who))
      {
        ghost var sofar := script;
        if JobOf(fan, who).Reseeding? {
          script := LoadOne(who);
        } else {
          script := PutOne(who);
        }
        RunConcat(old(fan), sofar, script);
        script := sofar + script;
      }
    }
  }
}
