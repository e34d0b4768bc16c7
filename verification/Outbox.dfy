/** Fan-out of the mirrors to one browser client through its bounded, collapsing outbox.
    Three goroutines share it: the poller's, which also moves the mirrors; the client's own,
    which subscribes; and the client's sender. Either of the first two may find the outbox
    full and collapse it, and all three interleave at every access to shared state. */
module Outbox {
  import opened OrderBook
  import opened BookStream
  import opened Levels

  type Symbol = string

  const OUTBOX_MAX: nat := 500

  datatype Msg =
    | SnapshotMsg(symbol: Symbol, bids: seq<Level>, asks: seq<Level>)
    | DeltaMsg(symbol: Symbol, delta: Delta)

  function SnapshotOf(symbol: Symbol, m: Maps): Msg {
    SnapshotMsg(symbol, MapToLevels(Bid, m.bids), MapToLevels(Ask, m.asks))
  }

  // ---------------------------------------------------------------- the browser's copy

  /** What one message does to the store of one symbol. */
  function Deliver(v: Maps, symbol: Symbol, m: Msg): Maps {
    if m.symbol != symbol then v
    else
      match m
      case SnapshotMsg(_, bids, asks) => MapsOf(bids, asks)
      case DeltaMsg(_, d) => ApplyToMaps(v, d)
  }

  function DeliverAll(v: Maps, symbol: Symbol, msgs: seq<Msg>): Maps {
    if msgs == [] then v else Deliver(DeliverAll(v, symbol, msgs[..|msgs| - 1]), symbol, msgs[|msgs| - 1])
  }

  lemma DeliverSnoc(v: Maps, symbol: Symbol, msgs: seq<Msg>, m: Msg)
    ensures DeliverAll(v, symbol, msgs + [m]) == Deliver(DeliverAll(v, symbol, msgs), symbol, m)
  {
    assert (msgs + [m])[..|msgs + [m]| - 1] == msgs;
  }

  /** Delivering the head early changes nothing in the end. */
  lemma {:induction false} DeliverHead(v: Maps, symbol: Symbol, msgs: seq<Msg>)
    requires msgs != []
    ensures DeliverAll(v, symbol, msgs) == DeliverAll(Deliver(v, symbol, msgs[0]), symbol, msgs[1..])
    decreases |msgs|
  {
    if |msgs| == 1 {
      assert msgs[..0] == [] && msgs[1..] == [];
    } else {
      var pre := msgs[..|msgs| - 1];
      DeliverHead(v, symbol, pre);
      assert msgs[1..][..|msgs| - 2] == pre[1..];
    }
  }

  /** The browser-side store. */
  class BookStore {
    var bids: map<int, int>
    var asks: map<int, int>
    var seqNo: Option<nat>

    constructor ()
      ensures Maps(bids, asks) == EMPTY && seqNo == None
    {
      bids, asks, seqNo := map[], map[], None;
    }

    method ApplySnapshot(snapshotSeq: nat, newBids: seq<Level>, newAsks: seq<Level>)
      modifies this
      ensures Maps(bids, asks) == MapsOf(newBids, newAsks) && seqNo == Some(snapshotSeq)
    {
      bids, asks := map[], map[];
      for i := 0 to |newBids|
        invariant bids == MapOf(newBids[..i]) && asks == map[]
      {
        bids := bids[newBids[i].price := newBids[i].qty];
        assert newBids[..i + 1][..i] == newBids[..i];
      }
      for i := 0 to |newAsks|
        invariant bids == MapOf(newBids[..|newBids|]) && asks == MapOf(newAsks[..i])
      {
        asks := asks[newAsks[i].price := newAsks[i].qty];
        assert newAsks[..i + 1][..i] == newAsks[..i];
      }
      assert newBids[..|newBids|] == newBids && newAsks[..|newAsks|] == newAsks;
      seqNo := Some(snapshotSeq);
    }

    method ApplyDelta(d: Delta)
      modifies this
      ensures Maps(bids, asks) == ApplyToMaps(old(Maps(bids, asks)), d) && seqNo == Some(d.seqNo)
    {
      if d.side.Bid? {
        bids := if d.qty == 0 then bids - {d.price} else bids[d.price := d.qty];
      } else {
        asks := if d.qty == 0 then asks - {d.price} else asks[d.price := d.qty];
      }
      seqNo := Some(d.seqNo);
    }
  }

  // ---------------------------------------------------------------- the step system

  /** What a goroutine is in the middle of: reporting a delta already in the mirror, or a
      collapse (draining, then for each symbol loading its snapshot and queueing it). */
  datatype Job =
    | Idle
    | Telling(sym: Symbol, delta: Delta)
    | Draining
    | Reseeding(todo: set<Symbol>)
    | Loaded(sym: Symbol, maps: Maps, todo: set<Symbol>)

  datatype Who = Poller | Subscriber

  /** `dirty` symbols had their mirror rebuilt and the resync snapshot is still to come;
      `views` is what the browser holds. */
  datatype Fan = Fan(
    mirrors: map<Symbol, Maps>,
    outbox: seq<Msg>, symbols: set<Symbol>, pending: set<Symbol>,
    poll: Job, sub: Job,
    views: map<Symbol, Maps>, dirty: set<Symbol>)

  datatype Action =
    | MirrorDelta(sym: Symbol, delta: Delta)
    | Tell
    | MirrorRebuild(sym: Symbol, maps: Maps)
    | EmitSnapshot(sym: Symbol)
    | Drain(who: Who)
    | Load(who: Who, sym: Symbol)
    | Put(who: Who)
    | Send
    | Subscribe(sym: Symbol)
    | MarkReady(sym: Symbol)
    | Unsubscribe(sym: Symbol)
    | Unregister(sym: Symbol)

  function Init(): Fan { Fan(map[], [], {}, {}, Idle, Idle, map[], {}) }

  function View(s: Fan, sym: Symbol): Maps { if sym in s.views then s.views[sym] else EMPTY }

  /** What the browser will hold once it has applied everything queued for it. */
  function Final(s: Fan, sym: Symbol): Maps { DeliverAll(View(s, sym), sym, s.outbox) }

  predicate Ready(s: Fan, sym: Symbol) { sym in s.symbols && sym !in s.pending }

  predicate Room(s: Fan) { |s.outbox| < OUTBOX_MAX }

  function JobOf(s: Fan, who: Who): Job { if who.Poller? then s.poll else s.sub }

  function WithJob(s: Fan, who: Who, job: Job): Fan {
    if who.Poller? then s.(poll := job) else s.(sub := job)
  }

  /** A full outbox starts a collapse; the message itself is dropped. */
  function Enqueue(s: Fan, who: Who, m: Msg): Fan {
    if Room(s) then WithJob(s.(outbox := s.outbox + [m]), who, Idle) else WithJob(s, who, Draining)
  }

  function Next(todo: set<Symbol>): Job { if todo == {} then Idle else Reseeding(todo) }

  function StepDrain(s: Fan, who: Who): Fan {
    if s.outbox != [] then s.(outbox := s.outbox[1..]) else WithJob(s, who, Next(s.symbols))
  }

  function StepLoad(s: Fan, who: Who, sym: Symbol): Fan
    requires JobOf(s, who).Reseeding?
  {
    var todo := JobOf(s, who).todo - {sym};
    WithJob(s, who, if Ready(s, sym) && sym in s.mirrors then Loaded(sym, s.mirrors[sym], todo) else Next(todo))
  }

  /** Queue the loaded snapshot if there is room, and go on to the next symbol. */
  function StepPut(s: Fan, who: Who): Fan
    requires JobOf(s, who).Loaded?
  {
    var job := JobOf(s, who);
    var s' := if Room(s) then s.(outbox := s.outbox + [SnapshotOf(job.sym, job.maps)]) else s;
    WithJob(s', who, Next(job.todo))
  }

  function StepSend(s: Fan): Fan
    requires s.outbox != []
  {
    var m := s.outbox[0];
    s.(outbox := s.outbox[1..], views := s.views[m.symbol := Deliver(View(s, m.symbol), m.symbol, m)])
  }

  /** AddSymbol and the seeding Enqueue; the symbol stays pending until MarkReady. */
  function StepSubscribe(s: Fan, sym: Symbol): Fan {
    var s' := s.(symbols := s.symbols + {sym}, pending := s.pending + {sym});
    if sym in s.mirrors then Enqueue(s', Subscriber, SnapshotOf(sym, s.mirrors[sym])) else s'
  }

  /** Steps that are not enabled leave the state alone. A symbol without a mirror may be
      registered at any time, by whichever client subscribes to it first. */
  function Step(s: Fan, a: Action): Fan {
    match a
    case MirrorDelta(sym, d) =>
      if s.poll.Idle? && sym in s.mirrors
      then s.(mirrors := s.mirrors[sym := ApplyToMaps(s.mirrors[sym], d)], poll := Telling(sym, d)) else s
    case Tell =>
      if !s.poll.Telling? then s
      else if Ready(s, s.poll.sym) then Enqueue(s, Poller, DeltaMsg(s.poll.sym, s.poll.delta))
      else s.(poll := Idle)
    case MirrorRebuild(sym, maps) =>
      if s.poll.Idle? || sym !in s.mirrors
      then s.(mirrors := s.mirrors[sym := maps], dirty := s.dirty + {sym}) else s
    case EmitSnapshot(sym) =>
      if !(s.poll.Idle? && sym in s.mirrors) then s
      else if Ready(s, sym) then Enqueue(s.(dirty := s.dirty - {sym}), Poller, SnapshotOf(sym, s.mirrors[sym]))
      else s.(dirty := s.dirty - {sym})
    case Drain(who) => if JobOf(s, who).Draining? then StepDrain(s, who) else s
    case Load(who, sym) => if JobOf(s, who).Reseeding? && sym in JobOf(s, who).todo then StepLoad(s, who, sym) else s
    case Put(who) => if JobOf(s, who).Loaded? then StepPut(s, who) else s
    case Send => if s.outbox != [] then StepSend(s) else s
    case Subscribe(sym) => if s.sub.Idle? then StepSubscribe(s, sym) else s
    case MarkReady(sym) => if s.sub.Idle? then s.(pending := s.pending - {sym}) else s
    case Unsubscribe(sym) =>
      if s.sub.Idle? then s.(symbols := s.symbols - {sym}, pending := s.pending - {sym}) else s
    case Unregister(sym) => s.(mirrors := s.mirrors - {sym})
  }

  function Run(s: Fan, actions: seq<Action>): Fan {
    if actions == [] then s else Step(Run(s, actions[..|actions| - 1]), actions[|actions| - 1])
  }

  lemma RunSnoc(s: Fan, actions: seq<Action>, a: Action)
    ensures Run(s, actions + [a]) == Step(Run(s, actions), a)
  {
    assert (actions + [a])[..|actions + [a]| - 1] == actions;
  }

  lemma {:induction false} RunConcat(s: Fan, a: seq<Action>, b: seq<Action>)
    ensures Run(s, a + b) == Run(Run(s, a), b)
    decreases |b|
  {
    if b == [] {
      assert a + b == a;
    } else {
      RunConcat(s, a, b[..|b| - 1]);
      assert (a + b)[..|a + b| - 1] == a + b[..|b| - 1];
    }
  }

  // ---------------------------------------------------------------- one symbol in line

  /** A collapse still has to reseed the symbol. */
  predicate Unsettles(job: Job, sym: Symbol) {
    || job.Draining?
    || (job.Reseeding? && sym in job.todo)
    || (job.Loaded? && (sym == job.sym || sym in job.todo))
  }

  predicate Settled(s: Fan, sym: Symbol) { !Unsettles(s.poll, sym) && !Unsettles(s.sub, sym) }

  /** A copy after the delta the poller is about to report, if it is for this symbol. */
  function Told(s: Fan, sym: Symbol, v: Maps): Maps {
    if s.poll.Telling? && s.poll.sym == sym then ApplyToMaps(v, s.poll.delta) else v
  }

  /** Delivering the outbox, and what the poller is about to add, yields the mirror. */
  predicate InLine(s: Fan, sym: Symbol) {
    sym in s.mirrors && Told(s, sym, Final(s, sym)) == s.mirrors[sym]
  }

  /** The symbol is ready and has a mirror; what the poller has loaded of it, it alone could
      have changed since. */
  predicate Held(s: Fan, sym: Symbol) {
    && Ready(s, sym) && sym in s.mirrors
    && (s.poll.Loaded? && s.poll.sym == sym ==> s.poll.maps == s.mirrors[sym])
  }

  /** Nobody subscribes, unsubscribes or unregisters the symbol. */
  predicate LeavesAlone(a: Action, sym: Symbol) {
    a != Subscribe(sym) && a != Unsubscribe(sym) && a != Unregister(sym)
  }

  lemma StepHolds(s: Fan, a: Action, sym: Symbol)
    requires Held(s, sym) && LeavesAlone(a, sym)
    ensures Held(Step(s, a), sym)
  {
  }

  /** Adding a message for one symbol moves only that symbol. */
  lemma AppendMovesOne(s: Fan, s': Fan, m: Msg, sym: Symbol)
    requires s'.outbox == s.outbox + [m] && s'.views == s.views
    ensures Final(s', sym) == if m.symbol == sym then Deliver(Final(s, sym), sym, m) else Final(s, sym)
  {
    DeliverSnoc(View(s, sym), sym, s.outbox, m);
  }

  lemma SnapshotBringsInLine(v: Maps, sym: Symbol, m: Maps)
    ensures Deliver(v, sym, SnapshotOf(sym, m)) == m
  {
  }

  lemma SendMovesNothing(s: Fan, sym: Symbol)
    requires s.outbox != []
    ensures Final(StepSend(s), sym) == Final(s, sym)
  {
    DeliverHead(View(s, sym), sym, s.outbox);
  }

  lemma TellKeepsInLine(s: Fan, sym: Symbol)
    requires Held(s, sym) && s.poll.Telling? && InLine(s, sym) && Settled(Step(s, Tell), sym)
    ensures InLine(Step(s, Tell), sym)
  {
    if Ready(s, s.poll.sym) { AppendMovesOne(s, Step(s, Tell), DeltaMsg(s.poll.sym, s.poll.delta), sym); }
  }

  lemma EmitBringsInLine(s: Fan, sym: Symbol)
    requires Held(s, sym) && s.poll.Idle? && Settled(Step(s, EmitSnapshot(sym)), sym)
    ensures InLine(Step(s, EmitSnapshot(sym)), sym)
  {
    AppendMovesOne(s, Step(s, EmitSnapshot(sym)), SnapshotOf(sym, s.mirrors[sym]), sym);
    SnapshotBringsInLine(Final(s, sym), sym, s.mirrors[sym]);
  }

  lemma OtherPutKeepsFinal(s: Fan, who: Who, sym: Symbol)
    requires JobOf(s, who).Loaded? && JobOf(s, who).sym != sym
    ensures Final(StepPut(s, who), sym) == Final(s, sym)
  {
    if Room(s) { AppendMovesOne(s, StepPut(s, who), SnapshotOf(JobOf(s, who).sym, JobOf(s, who).maps), sym); }
  }

  /** A settled symbol in line stays in line while it stays settled, whatever the three
      goroutines do, short of rebuilding its mirror. */
  lemma SettledStaysInLine(s: Fan, a: Action, sym: Symbol)
    requires Held(s, sym) && LeavesAlone(a, sym) && !(a.MirrorRebuild? && a.sym == sym)
    requires Settled(s, sym) && InLine(s, sym) && Settled(Step(s, a), sym)
    ensures InLine(Step(s, a), sym)
  {
    match a
    case MirrorDelta(_, _) =>
    case Tell => if s.poll.Telling? { TellKeepsInLine(s, sym); }
    case MirrorRebuild(_, _) =>
    case EmitSnapshot(x) =>
      if s.poll.Idle? && x in s.mirrors && Ready(s, x) {
        if x == sym { EmitBringsInLine(s, sym); } else {
          AppendMovesOne(s, Step(s, a), SnapshotOf(x, s.mirrors[x]), sym);
        }
      }
    case Drain(_) =>
    case Load(_, _) =>
    case Put(who) => if JobOf(s, who).Loaded? { OtherPutKeepsFinal(s, who, sym); }
    case Send => if s.outbox != [] { SendMovesNothing(s, sym); }
    case Subscribe(x) =>
      if s.sub.Idle? && x in s.mirrors { AppendMovesOne(s, Step(s, a), SnapshotOf(x, s.mirrors[x]), sym); }
    case MarkReady(_) =>
    case Unsubscribe(_) =>
    case Unregister(_) =>
  }

  /** What was loaded is still the mirror, but for a delta the poller has yet to report. */
  predicate Current(s: Fan, sym: Symbol, loaded: Maps) {
    sym in s.mirrors && Told(s, sym, loaded) == s.mirrors[sym]
  }

  /** The exact condition: a reseeded symbol is in line if and only if its mirror, at the
      moment the snapshot is queued, is what was loaded. */
  lemma PutInLineIff(s: Fan, who: Who)
    requires JobOf(s, who).Loaded? && Room(s)
    ensures var job := JobOf(s, who);
      InLine(StepPut(s, who), job.sym) <==> Current(StepPut(s, who), job.sym, job.maps)
  {
    var job := JobOf(s, who);
    AppendMovesOne(s, StepPut(s, who), SnapshotOf(job.sym, job.maps), job.sym);
    SnapshotBringsInLine(Final(s, job.sym), job.sym, job.maps);
  }

  /** A collapse gets to the point of queueing its snapshot of the symbol, and no other
      collapse is going to reseed it after that. */
  predicate LastPut(s: Fan, a: Action, sym: Symbol) {
    && a.Put? && JobOf(s, a.who).Loaded? && JobOf(s, a.who).sym == sym && sym !in JobOf(s, a.who).todo
    && !Unsettles(if a.who.Poller? then s.sub else s.poll, sym)
  }

  /** Only queueing its snapshot settles a symbol. */
  lemma OnlyPutsSettle(s: Fan, a: Action, sym: Symbol)
    requires Held(s, sym) && LeavesAlone(a, sym) && !Settled(s, sym) && Settled(Step(s, a), sym)
    ensures LastPut(s, a, sym)
  {
    match a
    case MirrorDelta(_, _) =>
    case Tell =>
    case MirrorRebuild(_, _) =>
    case EmitSnapshot(_) =>
    case Drain(_) =>
    case Load(who, x) =>
      if JobOf(s, who).Reseeding? && x in JobOf(s, who).todo { LoadKeepsUnsettled(s, who, x, sym); }
    case Put(_) =>
    case Send =>
    case Subscribe(_) =>
    case MarkReady(_) =>
    case Unsubscribe(_) =>
    case Unregister(_) =>
  }

  lemma LoadKeepsUnsettled(s: Fan, who: Who, x: Symbol, sym: Symbol)
    requires Held(s, sym) && JobOf(s, who).Reseeding? && x in JobOf(s, who).todo
    ensures Unsettles(JobOf(StepLoad(s, who, x), who), sym) <==> Unsettles(JobOf(s, who), sym)
  {
    var todo := JobOf(s, who).todo;
    assert x != sym ==> (sym in todo <==> sym in todo - {x});
  }

  /** Settled, and not waiting for a resync snapshot: the symbol is in line. */
  predicate Good(s: Fan, sym: Symbol) { Settled(s, sym) && sym !in s.dirty ==> InLine(s, sym) }

  /** The last snapshot of the symbol finds room and is not out of date; or it finds none, and
      what is queued already yields the mirror. */
  predicate PutsWell(s: Fan, a: Action, sym: Symbol) {
    LastPut(s, a, sym) && sym !in s.dirty ==>
      if Room(s) then Current(s, sym, JobOf(s, a.who).maps) else InLine(s, sym)
  }

  lemma PutGoodIff(s: Fan, who: Who, sym: Symbol)
    requires Held(s, sym) && JobOf(s, who).Loaded? && JobOf(s, who).sym == sym
    ensures Good(StepPut(s, who), sym) <==> PutsWell(s, Put(who), sym)
  {
    if Room(s) { PutInLineIff(s, who); }
  }

  lemma OtherStepStaysGood(s: Fan, a: Action, sym: Symbol)
    requires Held(s, sym) && Good(s, sym) && LeavesAlone(a, sym)
    requires !(a.Put? && JobOf(s, a.who).Loaded? && JobOf(s, a.who).sym == sym)
    ensures Good(Step(s, a), sym)
  {
    var s' := Step(s, a);
    if s' != s && Settled(s', sym) && sym !in s'.dirty {
      if !Settled(s, sym) {
        OnlyPutsSettle(s, a, sym);
      } else if sym in s.dirty {
        EmitBringsInLine(s, sym);
      } else {
        SettledStaysInLine(s, a, sym);
      }
    }
  }

  lemma StepGoodIff(s: Fan, a: Action, sym: Symbol)
    requires Held(s, sym) && Good(s, sym) && LeavesAlone(a, sym)
    ensures Good(Step(s, a), sym) <==> PutsWell(s, a, sym)
  {
    if a.Put? && JobOf(s, a.who).Loaded? && JobOf(s, a.who).sym == sym {
      PutGoodIff(s, a.who, sym);
    } else {
      OtherStepStaysGood(s, a, sym);
    }
  }
}
