/** What a full ring does to the mirror: concrete runs in which every push is one the ring
    itself accepts or, being full, drops. */
module Overrun {
  import opened OrderBook
  import opened BookStream
  import opened BookClient
  import opened Replication
  import opened ReplicationRuns
  import RingBuffer

  const N: nat := RingBuffer.CAPACITY

  /** Deltas 1 .. n, the i-th setting bid 7 to size i. */
  function Ramp(n: nat): seq<Delta> { seq(n, i requires 0 <= i < n => Delta(i + 1, Bid, 7, i + 1)) }

  function Bids(n: nat): seq<Level> { if n == 0 then [] else [Level(7, n)] }

  function BidMap(n: nat): map<int, int> { if n == 0 then map[] else map[7 := n] }

  lemma MapOfBids(n: nat)
    ensures MapOf(Bids(n)) == BidMap(n) && MapOf([]) == map[]
  {
    if n > 0 { assert [Level(7, n)][..0] == []; }
  }

  /** The n-th update of bid 7 replaces the level and evicts nothing. */
  lemma NextBid(n: nat)
    ensures AfterDelta(Bid, Bids(n), 7, n + 1) == Applied(Bids(n + 1), None)
  {
    PlacedCases(Bid, Bids(n), 7, n + 1);
    if n > 0 {
      assert Rank(Bid, Bids(n), 7) == 0;
    }
  }

  function BidUpdate(n: nat): seq<Action> { [UpdateLevel(Bid, 7, n)] + [Push(false)] }

  lemma RunTwo(s: Sys, a: Action, b: Action)
    ensures Run(s, [a] + [b]) == Step(Step(s, a), b)
  {
    RunOne(s, a);
    RunSnoc(s, [a], b);
  }

  // ---------------------------------------------------------------- filling the ring

  /** A caught-up reader that does not poll while n deltas are pushed. */
  function Filling(n: nat): Sys {
    Sys(Writer(Engine(Bids(n), [], n, n), [], Ramp(n), 0), Slot(Snapshot(0, [], []), 0),
        Queue(Ramp(n), 0, {}, {}), Reader(Polling, 1, EMPTY, 0, EMPTY, 0, 0))
  }

  lemma StartRun()
    ensures Run(Init(), [Register] + [CatchUp]) == Filling(0)
  {
    RunTwo(Init(), Register, CatchUp);
    MapOfBids(0);
    assert Ramp(0) == [];
  }

  lemma WriterAt(n: nat)
    ensures WriterUpdate(Writer(Engine(Bids(n), [], n, n), [], Ramp(n), 0), Bid, 7, n + 1)
         == Writer(Engine(Bids(n + 1), [], n + 1, n + 1), [Delta(n + 1, Bid, 7, n + 1)], Ramp(n + 1), 0)
  {
    NextBid(n);
    assert Ramp(n) + [Delta(n + 1, Bid, 7, n + 1)] == Ramp(n + 1);
  }

  lemma FillOne(n: nat)
    requires n < N
    ensures Run(Filling(n), BidUpdate(n + 1)) == Filling(n + 1)
  {
    WriterAt(n);
    RunTwo(Filling(n), UpdateLevel(Bid, 7, n + 1), Push(false));
    assert Ramp(n) + [Delta(n + 1, Bid, 7, n + 1)] == Ramp(n + 1);
  }

  function FillScript(n: nat): seq<Action> {
    if n == 0 then [Register] + [CatchUp] else FillScript(n - 1) + BidUpdate(n)
  }

  lemma {:induction false} FillRun(n: nat)
    requires n <= N
    ensures Run(Init(), FillScript(n)) == Filling(n)
    decreases n
  {
    if n == 0 {
      StartRun();
    } else {
      FillRun(n - 1);
      FillOne(n - 1);
      RunConcat(Init(), FillScript(n - 1), BidUpdate(n));
    }
  }

  // ---------------------------------------------------------------- one delta too many

  /** The ring was full when delta N + 1 came, a snapshot followed, and the reader has since
      polled k times. */
  function Draining(k: nat): Sys
    requires k <= N
  {
    Sys(Writer(Engine(Bids(N + 1), [], N + 1, 0), [], Ramp(N + 1), 0), Slot(Snapshot(N + 1, Bids(N + 1), []), 0),
        Queue(Ramp(N)[k..], k, {N + 1}, {}), Reader(Polling, k + 1, Maps(BidMap(k), map[]), 0, EMPTY, 0, 0))
  }

  lemma OverflowRun()
    ensures Run(Filling(N), BidUpdate(N + 1) + [PublishSnapshot]) == Draining(0)
  {
    WriterAt(N);
    RunTwo(Filling(N), UpdateLevel(Bid, 7, N + 1), Push(false));
    RunSnoc(Filling(N), BidUpdate(N + 1), PublishSnapshot);
    assert Ramp(N)[0..] == Ramp(N);
  }

  lemma PollOne(k: nat)
    requires k < N
    ensures Step(Draining(k), Poll) == Draining(k + 1)
  {
    assert Ramp(N)[k..][0] == Delta(k + 1, Bid, 7, k + 1);
    assert Ramp(N)[k..][1..] == Ramp(N)[k + 1..];
    assert BidMap(k)[7 := k + 1] == BidMap(k + 1);
  }

  function Polls(k: nat): seq<Action> { if k == 0 then [] else Polls(k - 1) + [Poll] }

  lemma {:induction false} PollRun(k: nat)
    requires k <= N
    ensures Run(Draining(0), Polls(k)) == Draining(k)
    decreases k
  {
    if k > 0 {
      PollRun(k - 1);
      PollOne(k - 1);
      RunSnoc(Draining(0), Polls(k - 1), Poll);
    }
  }

  function OverflowScript(): seq<Action> {
    FillScript(N) + (BidUpdate(N + 1) + [PublishSnapshot]) + Polls(N)
  }

  lemma OverflowReaches()
    ensures Run(Init(), OverflowScript()) == Draining(N)
  {
    FillRun(N);
    OverflowRun();
    PollRun(N);
    RunConcat(Init(), FillScript(N), BidUpdate(N + 1) + [PublishSnapshot]);
    RunConcat(Init(), FillScript(N) + (BidUpdate(N + 1) + [PublishSnapshot]), Polls(N));
  }

  lemma MapsDiffer(m: Maps, e: Engine, n: nat)
    requires e.bids == Bids(n) && n > 0 && m.bids != map[7 := n]
    ensures m != EngineMaps(e)
  {
    MapOfBids(n);
  }

  /** A drop at the end of the stream is silent: the reader polls an empty ring at a message
      boundary, has seen no gap and lost nothing it could know of, and is out of date. */
  lemma TailDropIsSilent()
    ensures var s := Run(Init(), OverflowScript());
      && Drained(s) && s.r.jumps == 0 && s.q.discarded == {} && s.r.baseCut == s.w.cut
      && !NewestArrived(s) && s.r.mirror != EngineMaps(s.w.engine)
  {
    OverflowReaches();
    assert Ramp(N)[N..] == [];
    assert |Ramp(N + 1)| == N + 1;
    assert BidMap(N)[7] == N;
    MapsDiffer(Maps(BidMap(N), map[]), Draining(N).w.engine, N + 1);
  }

  // ---------------------------------------------------------------- a resync that does not recover

  /** One more message of two levels, both accepted; the first reveals the gap and is lost,
      and the snapshot, though it covers the dropped delta, does not cover that one. */
  function WriteScript(): seq<Action> { BidUpdate(N + 2) + ([UpdateLevel(Ask, 8, 1)] + [Push(false)]) }

  function ReadScript(): seq<Action> { ([Poll] + [ReadSnapshot]) + ([CatchUp] + [CatchUp]) }

  const FIRST: Delta := Delta(N + 2, Bid, 7, N + 2)
  const SECOND: Delta := Delta(N + 3, Ask, 8, 1)

  function LastWriter(): Writer {
    Writer(Engine(Bids(N + 2), [Level(8, 1)], N + 3, 2), [], Ramp(N + 2) + [SECOND], 0)
  }

  function BeforeGap(): Sys {
    Sys(LastWriter(), Draining(N).slot, Queue([FIRST] + [SECOND], N, {N + 1}, {}), Draining(N).r)
  }

  lemma AskUpdate(e: Engine)
    requires e.asks == []
    ensures AfterUpdate(e, Ask, 8, 1) == e.(asks := [Level(8, 1)], lastSeq := e.lastSeq + 1, sinceSnapshot := e.sinceSnapshot + 1)
    ensures UpdateDeltas(e, Ask, 8, 1) == [Delta(e.lastSeq + 1, Ask, 8, 1)]
  {
    assert Placed(Ask, [], 8, 1) == [Level(8, 1)];
  }

  lemma FirstWrite()
    ensures Run(Draining(N), BidUpdate(N + 2)) ==
      Sys(Writer(Engine(Bids(N + 2), [], N + 2, 1), [], Ramp(N + 2), 0), Draining(N).slot,
          Queue([FIRST], N, {N + 1}, {}), Draining(N).r)
  {
    NextBid(N + 1);
    RunTwo(Draining(N), UpdateLevel(Bid, 7, N + 2), Push(false));
    assert Ramp(N + 1) + [FIRST] == Ramp(N + 2);
    assert Ramp(N)[N..] + [FIRST] == [FIRST];
  }

  lemma WriteRun()
    ensures Run(Draining(N), WriteScript()) == BeforeGap()
  {
    FirstWrite();
    var s := Run(Draining(N), BidUpdate(N + 2));
    AskUpdate(s.w.engine);
    RunTwo(s, UpdateLevel(Ask, 8, 1), Push(false));
    RunConcat(Draining(N), BidUpdate(N + 2), [UpdateLevel(Ask, 8, 1)] + [Push(false)]);
  }

  lemma ReadRun()
    ensures var t := Run(BeforeGap(), ReadScript());
      && t.w == LastWriter() && t.q == Queue([], N + 3, {N + 1}, {N + 2})
      && t.r == Reader(Polling, N + 4, Maps(BidMap(N + 1), map[8 := 1]), N + 1, Maps(BidMap(N + 1), map[]), 0, 1)
  {
    var s := BeforeGap();
    RunConcat(s, [Poll] + [ReadSnapshot], [CatchUp] + [CatchUp]);
    RunTwo(s, Poll, ReadSnapshot);
    assert ([FIRST] + [SECOND])[1..] == [SECOND];
    MapOfBids(N + 1);
    var s2 := Step(Step(s, Poll), ReadSnapshot);
    assert s2.q == Queue([SECOND], N + 2, {N + 1}, {N + 2});
    assert s2.r == Reader(CatchingUp(N + 2, N + 1), N + 1, Maps(BidMap(N + 1), map[]), N + 1, Maps(BidMap(N + 1), map[]), 0, 0);
    RunTwo(s2, CatchUp, CatchUp);
  }

  function GapScript(): seq<Action> { OverflowScript() + WriteScript() + ReadScript() }

  /** The resync ends with a drained reader whose mirror is wrong and whose loss is behind
      it, so that (LossLasts) it will see no gap and repair nothing. */
  lemma ResyncCanLeaveALoss()
    ensures var s := Run(Init(), GapScript());
      && Drained(s) && s.r.baseCut == s.w.cut && s.r.jumps > 0 && NoneAhead(s)
      && s.r.mirror != EngineMaps(s.w.engine)
  {
    OverflowReaches();
    WriteRun();
    ReadRun();
    RunConcat(Init(), OverflowScript(), WriteScript());
    RunConcat(Init(), OverflowScript() + WriteScript(), ReadScript());
    assert BidMap(N + 1)[7] == N + 1;
    MapsDiffer(Maps(BidMap(N + 1), map[8 := 1]), LastWriter().engine, N + 2);
  }
}
