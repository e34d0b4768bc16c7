/** The symbol registry over the 32-slot shared-memory pool: subscribe and unsubscribe as
    interleaved steps of any number of threads, split where the lock is not held and, while
    scanning and filling a slot, at every access to shared memory. */
module SlotPool {
  import opened OrderBook

  const POOL_SIZE: nat := 32
  const NAME_WIDTH: nat := 16

  datatype Entry = Entry(refcount: nat, slot: nat)

  /** Where a thread stands. Scanning to Starting run under the registry's lock;
      `seen` are the claimed flags at the moment the lock was taken. */
  datatype Pc =
    | Idle
    | Lookup(symbol: string)
    | Scanning(symbol: string, next: nat, seen: seq<bool>)
    | Found(symbol: string, slot: nat)
    | Stamped(symbol: string, slot: nat)
    | Starting(symbol: string, slot: nat)
    | Joining(symbol: string, slot: nat)
    | Clearing(slot: nat)

  datatype Owner = Live(symbol: string) | Worker(thread: nat)

  /** `owner` is history: who claimed the slot, or inherited it. */
  datatype Cell = Cell(claimed: bool, name: string, owner: Owner)

  datatype Note =
    | Subscribed(symbol: string)
    | Unsubscribed(symbol: string)
    | Created(symbol: string)
    | Detached(symbol: string)
    | Exhausted(symbol: string)
    | Refused(symbol: string)

  datatype Pool = Pool(entries: map<string, Entry>, cells: seq<Cell>, pcs: map<nat, Pc>,
                       lock: Option<nat>, log: seq<Note>)

  datatype Action =
    | Check(t: nat, symbol: string)
    | LookupDone(t: nat, supported: bool)
    | Probe(t: nat)
    | Fill(t: nat)
    | Unsubscribe(t: nat, symbol: string)
    | Release(t: nat)

  function PcOf(s: Pool, t: nat): Pc { if t in s.pcs then s.pcs[t] else Idle }

  function Init(): Pool {
    Pool(map[], seq(POOL_SIZE, _ => Cell(false, "", Worker(0))), map[], None, [])
  }

  function Flags(cells: seq<Cell>): seq<bool> {
    seq(|cells|, i requires 0 <= i < |cells| => cells[i].claimed)
  }

  // ---------------------------------------------------------------- steps

  /** One more reference to a live entry. */
  function Share(s: Pool, t: nat, symbol: string): Pool
    requires symbol in s.entries
  {
    var e := s.entries[symbol];
    s.(entries := s.entries[symbol := e.(refcount := e.refcount + 1)],
       pcs := s.pcs[t := Idle], log := s.log + [Subscribed(symbol)])
  }

  function CheckStep(s: Pool, t: nat, symbol: string): Pool {
    if PcOf(s, t) != Idle || s.lock.Some? then s
    else if symbol in s.entries then Share(s, t, symbol)
    else s.(pcs := s.pcs[t := Lookup(symbol)])
  }

  /** The precision lookup returned; on success take the lock and look again. */
  function LookupStep(s: Pool, t: nat, supported: bool): Pool {
    var pc := PcOf(s, t);
    if !pc.Lookup? then s
    else if !supported then s.(pcs := s.pcs[t := Idle], log := s.log + [Refused(pc.symbol)])
    else if s.lock.Some? then s
    else if pc.symbol in s.entries then Share(s, t, pc.symbol)
    else s.(lock := Some(t), pcs := s.pcs[t := Scanning(pc.symbol, 0, Flags(s.cells))])
  }

  /** Load one claimed flag. */
  function ProbeStep(s: Pool, t: nat): Pool {
    var pc := PcOf(s, t);
    if !pc.Scanning? then s
    else if pc.next >= |s.cells| then
      s.(lock := None, pcs := s.pcs[t := Idle], log := s.log + [Exhausted(pc.symbol)])
    else if s.cells[pc.next].claimed then s.(pcs := s.pcs[t := pc.(next := pc.next + 1)])
    else if |pc.symbol| >= NAME_WIDTH then
      s.(lock := None, pcs := s.pcs[t := Idle], log := s.log + [Refused(pc.symbol)])
    else s.(pcs := s.pcs[t := Found(pc.symbol, pc.next)])
  }

  /** Write the name, then set the flag, then enter the entry in the registry and unlock. */
  function FillStep(s: Pool, t: nat): Pool {
    match PcOf(s, t)
    case Found(symbol, k) =>
      if k < |s.cells|
      then s.(cells := s.cells[k := s.cells[k].(name := symbol)], pcs := s.pcs[t := Stamped(symbol, k)])
      else s
    case Stamped(symbol, k) =>
      if k < |s.cells|
      then s.(cells := s.cells[k := s.cells[k].(claimed := true, owner := Worker(t))],
              pcs := s.pcs[t := Starting(symbol, k)])
      else s
    case Starting(symbol, k) =>
      if k < |s.cells|
      then s.(entries := s.entries[symbol := Entry(1, k)],
              cells := s.cells[k := s.cells[k].(owner := Live(symbol))],
              lock := None, pcs := s.pcs[t := Idle],
              log := s.log + [Created(symbol), Subscribed(symbol)])
      else s
    case _ => s
  }

  function UnsubscribeStep(s: Pool, t: nat, symbol: string): Pool {
    if PcOf(s, t) != Idle || s.lock.Some? then s
    else if symbol !in s.entries then s.(log := s.log + [Refused(symbol)])
    else
      var e := s.entries[symbol];
      if e.refcount > 1 then
        s.(entries := s.entries[symbol := e.(refcount := e.refcount - 1)],
           log := s.log + [Unsubscribed(symbol)])
      else if e.slot < |s.cells| then
        s.(entries := s.entries - {symbol},
           cells := s.cells[e.slot := s.cells[e.slot].(owner := Worker(t))],
           pcs := s.pcs[t := Joining(symbol, e.slot)],
           log := s.log + [Unsubscribed(symbol), Detached(symbol)])
      else s
  }

  /** After the join, without the lock: wipe the name, then clear the flag. */
  function ReleaseStep(s: Pool, t: nat): Pool {
    match PcOf(s, t)
    case Joining(symbol, k) =>
      if k < |s.cells|
      then s.(cells := s.cells[k := s.cells[k].(name := "")], pcs := s.pcs[t := Clearing(k)])
      else s
    case Clearing(k) =>
      if k < |s.cells|
      then s.(cells := s.cells[k := s.cells[k].(claimed := false)], pcs := s.pcs[t := Idle])
      else s
    case _ => s
  }

  /** Steps that are not enabled leave the pool alone. */
  function Step(s: Pool, a: Action): Pool {
    match a
    case Check(t, symbol) => CheckStep(s, t, symbol)
    case LookupDone(t, supported) => LookupStep(s, t, supported)
    case Probe(t) => ProbeStep(s, t)
    case Fill(t) => FillStep(s, t)
    case Unsubscribe(t, symbol) => UnsubscribeStep(s, t, symbol)
    case Release(t) => ReleaseStep(s, t)
  }

  function Run(s: Pool, actions: seq<Action>): Pool {
    if actions == [] then s else Step(Run(s, actions[..|actions| - 1]), actions[|actions| - 1])
  }

  // ---------------------------------------------------------------- the invariant

  predicate Holds(pc: Pc, k: nat) { (pc.Starting? || pc.Joining? || pc.Clearing?) && pc.slot == k }

  /** A live entry has the slot, or a thread is starting or tearing down an entry with it. */
  predicate Owns(s: Pool, o: Owner, k: nat) {
    match o
    case Live(symbol) => symbol in s.entries && s.entries[symbol].slot == k
    case Worker(t) => Holds(PcOf(s, t), k)
  }

  ghost predicate Owned(s: Pool) {
    && |s.cells| == POOL_SIZE
    && forall o, k: nat :: Owns(s, o, k) <==> k < POOL_SIZE && s.cells[k].claimed && s.cells[k].owner == o
  }

  predicate InLock(pc: Pc) { pc.Scanning? || pc.Found? || pc.Stamped? || pc.Starting? }

  predicate Scanned(cells: seq<Cell>, next: nat, seen: seq<bool>) {
    && |seen| == |cells| && next <= |cells|
    && (forall i :: 0 <= i < |cells| && cells[i].claimed ==> seen[i])
    && (forall i :: 0 <= i < next ==> seen[i])
  }

  predicate Fits(s: Pool, pc: Pc) {
    && (InLock(pc) ==> pc.symbol !in s.entries)
    && (pc.Scanning? ==> Scanned(s.cells, pc.next, pc.seen))
    && (pc.Found? || pc.Stamped? ==> pc.slot < |s.cells| && !s.cells[pc.slot].claimed && |pc.symbol| < NAME_WIDTH)
    && (pc.Stamped? || pc.Starting? || pc.Joining? ==> pc.slot < |s.cells| && s.cells[pc.slot].name == pc.symbol)
    && (pc.Clearing? ==> pc.slot < |s.cells| && s.cells[pc.slot].name == "")
  }

  ghost predicate ThreadsFit(s: Pool) {
    && (forall t: nat :: Fits(s, PcOf(s, t)))
    && (forall t: nat :: InLock(PcOf(s, t)) <==> s.lock == Some(t))
  }

  predicate EntryFits(cells: seq<Cell>, symbol: string, e: Entry) {
    e.refcount >= 1 && e.slot < |cells| && cells[e.slot].name == symbol
  }

  predicate EntriesFit(s: Pool) {
    forall symbol :: symbol in s.entries ==> EntryFits(s.cells, symbol, s.entries[symbol])
  }

  function Tally(log: seq<Note>, note: Note): nat {
    if log == [] then 0 else Tally(log[..|log| - 1], note) + (if log[|log| - 1] == note then 1 else 0)
  }

  lemma TallySnoc(log: seq<Note>, x: Note, note: Note)
    ensures Tally(log + [x], note) == Tally(log, note) + (if x == note then 1 else 0)
  {
    assert (log + [x])[..|log + [x]| - 1] == log;
  }

  function Refs(entries: map<string, Entry>, symbol: string): nat {
    if symbol in entries then entries[symbol].refcount else 0
  }

  predicate RefsTallied(entries: map<string, Entry>, log: seq<Note>, symbol: string) {
    Tally(log, Subscribed(symbol)) == Tally(log, Unsubscribed(symbol)) + Refs(entries, symbol)
  }

  predicate LiveTallied(entries: map<string, Entry>, log: seq<Note>, symbol: string) {
    Tally(log, Created(symbol)) == Tally(log, Detached(symbol)) + One(symbol in entries)
  }

  function One(b: bool): nat { if b then 1 else 0 }

  ghost predicate Tallied(entries: map<string, Entry>, log: seq<Note>) {
    forall symbol :: RefsTallied(entries, log, symbol) && LiveTallied(entries, log, symbol)
  }

  ghost predicate Inv(s: Pool) {
    Owned(s) && ThreadsFit(s) && EntriesFit(s) && Tallied(s.entries, s.log)
  }

  // ---------------------------------------------------------------- every step keeps it

  /** A note that records exactly the change from `e` to `e'`. */
  lemma Noted(e: map<string, Entry>, e': map<string, Entry>, log: seq<Note>, x: Note)
    requires Tallied(e, log)
    requires forall y :: Refs(e', y) + One(x == Unsubscribed(y)) == Refs(e, y) + One(x == Subscribed(y))
    requires forall y :: One(y in e') + One(x == Detached(y)) == One(y in e) + One(x == Created(y))
    ensures Tallied(e', log + [x])
  {
    forall y ensures RefsTallied(e', log + [x], y) && LiveTallied(e', log + [x], y) {
      assert RefsTallied(e, log, y) && LiveTallied(e, log, y);
      assert Refs(e', y) + One(x == Unsubscribed(y)) == Refs(e, y) + One(x == Subscribed(y));
      TallySnoc(log, x, Subscribed(y));
      TallySnoc(log, x, Unsubscribed(y));
      TallySnoc(log, x, Created(y));
      TallySnoc(log, x, Detached(y));
    }
  }

  lemma NotedTwice(e: map<string, Entry>, e': map<string, Entry>, log: seq<Note>, x: Note, x': Note)
    requires Tallied(e, log)
    requires forall y :: Refs(e', y) + One(x == Unsubscribed(y)) + One(x' == Unsubscribed(y))
                      == Refs(e, y) + One(x == Subscribed(y)) + One(x' == Subscribed(y))
    requires forall y :: One(y in e') + One(x == Detached(y)) + One(x' == Detached(y))
                      == One(y in e) + One(x == Created(y)) + One(x' == Created(y))
    ensures Tallied(e', log + [x, x'])
  {
    assert log + [x, x'] == (log + [x]) + [x'];
    forall y ensures RefsTallied(e', log + [x, x'], y) && LiveTallied(e', log + [x, x'], y) {
      assert RefsTallied(e, log, y) && LiveTallied(e, log, y);
      forall n: Note
        ensures Tally((log + [x]) + [x'], n) == Tally(log, n) + One(x == n) + One(x' == n)
      {
        TallySnoc(log, x, n);
        TallySnoc(log + [x], x', n);
      }
      assert Refs(e', y) + One(x == Unsubscribed(y)) + One(x' == Unsubscribed(y))
          == Refs(e, y) + One(x == Subscribed(y)) + One(x' == Subscribed(y));
    }
  }

  predicate Holding(pc: Pc) { pc.Starting? || pc.Joining? || pc.Clearing? }

  predicate HasSlot(pc: Pc) { pc.Found? || pc.Stamped? || Holding(pc) }

  predicate SameOthers(s: Pool, s': Pool, t: nat) {
    && s'.pcs.Keys <= s.pcs.Keys + {t} && s.pcs.Keys <= s'.pcs.Keys
    && forall x :: x in s.pcs && x != t ==> s'.pcs[x] == s.pcs[x]
  }

  predicate SameSlots(e: map<string, Entry>, e': map<string, Entry>) {
    e'.Keys == e.Keys && forall y :: y in e ==> e'[y].slot == e[y].slot
  }

  /** Steps that move a thread without a slot in hand. */
  lemma OwnersKept(s: Pool, s': Pool, t: nat)
    requires Owned(s) && s'.cells == s.cells && SameSlots(s.entries, s'.entries)
    requires SameOthers(s, s', t) && !Holding(PcOf(s, t)) && !Holding(PcOf(s', t))
    ensures Owned(s')
  {
    forall o, k: nat ensures Owns(s', o, k) <==> Owns(s, o, k) {
      if o.Worker? && o.thread != t { assert PcOf(s', o.thread) == PcOf(s, o.thread); }
    }
  }

  lemma ThreadsKept(s: Pool, s': Pool, t: nat)
    requires ThreadsFit(s) && s'.cells == s.cells && s'.entries.Keys == s.entries.Keys
    requires SameOthers(s, s', t) && Fits(s', PcOf(s', t))
    requires if InLock(PcOf(s', t)) then s'.lock == Some(t) && (s.lock == None || s.lock == Some(t))
             else s'.lock == if s.lock == Some(t) then None else s.lock
    ensures ThreadsFit(s')
  {
    forall x: nat ensures Fits(s', PcOf(s', x)) && (InLock(PcOf(s', x)) <==> s'.lock == Some(x)) {
      assert Fits(s, PcOf(s, x)) && (InLock(PcOf(s, x)) <==> s.lock == Some(x));
      if x != t { assert PcOf(s', x) == PcOf(s, x); }
    }
  }

  lemma ShareKeepsInv(s: Pool, t: nat, symbol: string)
    requires Inv(s) && symbol in s.entries && s.lock == None && !Holding(PcOf(s, t))
    ensures Inv(Share(s, t, symbol))
  {
    var s' := Share(s, t, symbol);
    OwnersKept(s, s', t);
    ThreadsKept(s, s', t);
    Noted(s.entries, s'.entries, s.log, Subscribed(symbol));
  }

  lemma CheckKeepsInv(s: Pool, t: nat, symbol: string)
    requires Inv(s)
    ensures Inv(CheckStep(s, t, symbol))
  {
    var s' := CheckStep(s, t, symbol);
    if PcOf(s, t) == Idle && s.lock == None {
      if symbol in s.entries {
        ShareKeepsInv(s, t, symbol);
      } else {
        OwnersKept(s, s', t);
        ThreadsKept(s, s', t);
      }
    }
  }

  lemma LookupKeepsInv(s: Pool, t: nat, supported: bool)
    requires Inv(s)
    ensures Inv(LookupStep(s, t, supported))
  {
    var pc, s' := PcOf(s, t), LookupStep(s, t, supported);
    if pc.Lookup? {
      assert s.lock != Some(t);
      if supported && s.lock == None && pc.symbol in s.entries {
        ShareKeepsInv(s, t, pc.symbol);
      } else if s' != s {
        OwnersKept(s, s', t);
        ThreadsKept(s, s', t);
        if !supported { Noted(s.entries, s'.entries, s.log, Refused(pc.symbol)); }
      }
    }
  }

  lemma ProbeKeepsInv(s: Pool, t: nat)
    requires Inv(s)
    ensures Inv(ProbeStep(s, t))
  {
    var pc, s' := PcOf(s, t), ProbeStep(s, t);
    assert Fits(s, pc);
    if pc.Scanning? {
      assert s.lock == Some(t);
      OwnersKept(s, s', t);
      ThreadsKept(s, s', t);
      if PcOf(s', t) == Idle { Noted(s.entries, s'.entries, s.log, s'.log[|s.log|]); }
    }
  }

  // ---------------------------------------------------------------- steps that touch a slot

  /** No thread but `t` is concerned with slot `k`. */
  ghost predicate OthersAvoid(s: Pool, t: nat, k: nat) {
    forall x: nat :: x != t && HasSlot(PcOf(s, x)) ==> PcOf(s, x).slot != k
  }

  lemma OwnerIsAlone(s: Pool, o: Owner, t: nat, k: nat)
    requires Owned(s) && ThreadsFit(s) && Owns(s, o, k) && (o == Worker(t) || o.Live?)
    ensures OthersAvoid(s, t, k)
  {
    forall x: nat | x != t && HasSlot(PcOf(s, x)) ensures PcOf(s, x).slot != k {
      assert Fits(s, PcOf(s, x));
      if Holding(PcOf(s, x)) { assert Owns(s, Worker(x), PcOf(s, x).slot); }
    }
  }

  lemma FinderIsAlone(s: Pool, t: nat)
    requires Owned(s) && ThreadsFit(s) && (PcOf(s, t).Found? || PcOf(s, t).Stamped?)
    ensures OthersAvoid(s, t, PcOf(s, t).slot)
  {
    assert Fits(s, PcOf(s, t)) && s.lock == Some(t);
    forall x: nat | x != t && HasSlot(PcOf(s, x)) ensures PcOf(s, x).slot != PcOf(s, t).slot {
      assert !InLock(PcOf(s, x));
      assert Owns(s, Worker(x), PcOf(s, x).slot);
    }
  }

  /** `s'` differs from `s` in slot `k` and thread `t` only. */
  predicate Touches(s: Pool, s': Pool, t: nat, k: nat) {
    && |s'.cells| == |s.cells| && k < |s.cells|
    && (forall i :: 0 <= i < |s.cells| && i != k ==> s'.cells[i] == s.cells[i])
    && SameOthers(s, s', t)
  }

  lemma OthersFit(s: Pool, s': Pool, t: nat, k: nat)
    requires ThreadsFit(s) && Touches(s, s', t, k) && OthersAvoid(s, t, k)
    requires s.lock == Some(t) || (s'.entries.Keys <= s.entries.Keys && (s'.cells[k].claimed ==> s.cells[k].claimed))
    ensures forall x: nat :: x != t ==> PcOf(s', x) == PcOf(s, x) && Fits(s', PcOf(s, x))
  {
    forall x: nat | x != t ensures PcOf(s', x) == PcOf(s, x) && Fits(s', PcOf(s, x)) {
      assert Fits(s, PcOf(s, x)) && (InLock(PcOf(s, x)) <==> s.lock == Some(x));
      assert HasSlot(PcOf(s, x)) ==> PcOf(s, x).slot != k;
    }
  }

  lemma ThreadsFollow(s: Pool, s': Pool, t: nat, k: nat)
    requires ThreadsFit(s) && Touches(s, s', t, k) && OthersAvoid(s, t, k)
    requires s.lock == Some(t) || (s'.entries.Keys <= s.entries.Keys && (s'.cells[k].claimed ==> s.cells[k].claimed))
    requires Fits(s', PcOf(s', t))
    requires if InLock(PcOf(s', t)) then s'.lock == Some(t) && s.lock == Some(t)
             else s'.lock == if s.lock == Some(t) then None else s.lock
    ensures ThreadsFit(s')
  {
    OthersFit(s, s', t, k);
    forall x: nat ensures InLock(PcOf(s', x)) <==> s'.lock == Some(x) {
      assert InLock(PcOf(s, x)) <==> s.lock == Some(x);
    }
  }

  /** The slot keeps its owner, or passes between `t` and an entry, or is taken or given up by `t`. */
  lemma OwnersFollow(s: Pool, s': Pool, t: nat, k: nat)
    requires Owned(s) && Touches(s, s', t, k)
    requires forall i: nat :: i != k ==> !Holds(PcOf(s, t), i) && !Holds(PcOf(s', t), i)
    requires Holds(PcOf(s', t), k) <==> s'.cells[k].claimed && s'.cells[k].owner == Worker(t)
    requires forall x: nat :: x != t ==> !Holds(PcOf(s, x), k)
    requires s'.cells[k].claimed ==> s'.cells[k].owner == Worker(t) || s'.cells[k].owner.Live?
    requires forall y :: Owns(s', Live(y), k) <==> s'.cells[k].claimed && s'.cells[k].owner == Live(y)
    requires forall y, i: nat :: i != k ==> (Owns(s', Live(y), i) <==> Owns(s, Live(y), i))
    ensures Owned(s')
  {
    forall o, i: nat
      ensures Owns(s', o, i) <==> i < POOL_SIZE && s'.cells[i].claimed && s'.cells[i].owner == o
    {
      assert Owns(s, o, i) <==> i < POOL_SIZE && s.cells[i].claimed && s.cells[i].owner == o;
      if o.Worker? && o.thread != t { assert PcOf(s', o.thread) == PcOf(s, o.thread); }
    }
  }

  lemma AvoidMeansNotHeld(s: Pool, t: nat, k: nat)
    requires OthersAvoid(s, t, k)
    ensures forall x: nat :: x != t ==> !Holds(PcOf(s, x), k)
  {
    forall x: nat | x != t ensures !Holds(PcOf(s, x), k) {
      assert HasSlot(PcOf(s, x)) ==> PcOf(s, x).slot != k;
    }
  }

  lemma FillKeepsInv(s: Pool, t: nat)
    requires Inv(s)
    ensures Inv(FillStep(s, t))
  {
    var pc, s' := PcOf(s, t), FillStep(s, t);
    assert Fits(s, pc) && (InLock(pc) <==> s.lock == Some(t));
    if pc.Found? || pc.Stamped? || pc.Starting? {
      var k := pc.slot;
      if pc.Starting? { OwnerIsAlone(s, Worker(t), t, k); } else { FinderIsAlone(s, t); }
      FillKeepsOwners(s, t);
      ThreadsFollow(s, s', t, k);
      FillKeepsEntries(s, t);
      if pc.Starting? {
        NotedTwice(s.entries, s'.entries, s.log, Created(pc.symbol), Subscribed(pc.symbol));
      }
    }
  }

  lemma FillKeepsOwners(s: Pool, t: nat)
    requires Inv(s) && (PcOf(s, t).Found? || PcOf(s, t).Stamped? || PcOf(s, t).Starting?)
    requires OthersAvoid(s, t, PcOf(s, t).slot)
    ensures Owned(FillStep(s, t))
  {
    var pc, s' := PcOf(s, t), FillStep(s, t);
    var k := pc.slot;
    assert Fits(s, pc);
    AvoidMeansNotHeld(s, t, k);
    forall y ensures Owns(s, Live(y), k) ==> s.cells[k].claimed && s.cells[k].owner == Live(y) {}
    assert pc.Starting? ==> Owns(s, Worker(t), k);
    OwnersFollow(s, s', t, k);
  }

  lemma FillKeepsEntries(s: Pool, t: nat)
    requires Inv(s) && (PcOf(s, t).Found? || PcOf(s, t).Stamped? || PcOf(s, t).Starting?)
    ensures EntriesFit(FillStep(s, t))
  {
    var pc, s' := PcOf(s, t), FillStep(s, t);
    assert Fits(s, pc);
    forall y | y in s'.entries ensures EntryFits(s'.cells, y, s'.entries[y]) {
      if y in s.entries {
        assert EntryFits(s.cells, y, s.entries[y]) && Owns(s, Live(y), s.entries[y].slot);
      }
    }
  }

  lemma UnsubscribeKeepsInv(s: Pool, t: nat, symbol: string)
    requires Inv(s)
    ensures Inv(UnsubscribeStep(s, t, symbol))
  {
    var s' := UnsubscribeStep(s, t, symbol);
    if PcOf(s, t) == Idle && s.lock == None {
      if symbol !in s.entries {
        OwnersKept(s, s', t);
        ThreadsKept(s, s', t);
        Noted(s.entries, s'.entries, s.log, Refused(symbol));
      } else if s.entries[symbol].refcount > 1 {
        OwnersKept(s, s', t);
        ThreadsKept(s, s', t);
        Noted(s.entries, s'.entries, s.log, Unsubscribed(symbol));
      } else {
        DetachKeepsInv(s, t, symbol);
      }
    }
  }

  lemma DetachKeepsInv(s: Pool, t: nat, symbol: string)
    requires Inv(s) && PcOf(s, t) == Idle && s.lock == None
    requires symbol in s.entries && s.entries[symbol].refcount == 1
    ensures Inv(UnsubscribeStep(s, t, symbol))
  {
    var k, s' := s.entries[symbol].slot, UnsubscribeStep(s, t, symbol);
    assert EntryFits(s.cells, symbol, s.entries[symbol]);
    assert Owns(s, Live(symbol), k);
    OwnerIsAlone(s, Live(symbol), t, k);
    AvoidMeansNotHeld(s, t, k);
    forall y ensures Owns(s, Live(y), k) ==> y == symbol {}
    OwnersFollow(s, s', t, k);
    ThreadsFollow(s, s', t, k);
    NotedTwice(s.entries, s'.entries, s.log, Unsubscribed(symbol), Detached(symbol));
  }

  lemma ReleaseKeepsInv(s: Pool, t: nat)
    requires Inv(s)
    ensures Inv(ReleaseStep(s, t))
  {
    var pc, s' := PcOf(s, t), ReleaseStep(s, t);
    assert Fits(s, pc);
    if pc.Joining? || pc.Clearing? {
      var k := pc.slot;
      assert Owns(s, Worker(t), k);
      OwnerIsAlone(s, Worker(t), t, k);
      AvoidMeansNotHeld(s, t, k);
      forall y ensures !Owns(s, Live(y), k) {}
      OwnersFollow(s, s', t, k);
      ThreadsFollow(s, s', t, k);
      forall y | y in s.entries ensures EntryFits(s'.cells, y, s'.entries[y]) {
        assert EntryFits(s.cells, y, s.entries[y]) && Owns(s, Live(y), s.entries[y].slot);
      }
    }
  }

  lemma StepKeepsInv(s: Pool, a: Action)
    requires Inv(s)
    ensures Inv(Step(s, a))
  {
    match a
    case Check(t, symbol) => CheckKeepsInv(s, t, symbol);
    case LookupDone(t, supported) => LookupKeepsInv(s, t, supported);
    case Probe(t) => ProbeKeepsInv(s, t);
    case Fill(t) => FillKeepsInv(s, t);
    case Unsubscribe(t, symbol) => UnsubscribeKeepsInv(s, t, symbol);
    case Release(t) => ReleaseKeepsInv(s, t);
  }

  lemma {:induction false} RunKeepsInv(actions: seq<Action>)
    ensures Inv(Run(Init(), actions))
    decreases |actions|
  {
    if actions != [] {
      RunKeepsInv(actions[..|actions| - 1]);
      StepKeepsInv(Run(Init(), actions[..|actions| - 1]), actions[|actions| - 1]);
    }
  }

  // ---------------------------------------------------------------- what every run keeps

  /** In every interleaving, a slot is claimed exactly when somebody owns it, and its owner,
      a live entry or a thread starting or tearing one down, is the only one. */
  lemma ClaimedSlotHasOneOwner(actions: seq<Action>, k: nat)
    ensures var s := Run(Init(), actions);
      && (k < |s.cells| && s.cells[k].claimed <==> exists o :: Owns(s, o, k))
      && (forall o, o' :: Owns(s, o, k) && Owns(s, o', k) ==> o == o')
  {
    var s := Run(Init(), actions);
    RunKeepsInv(actions);
    if k < |s.cells| && s.cells[k].claimed { assert Owns(s, s.cells[k].owner, k); }
  }

  /** However many threads subscribe and unsubscribe, a symbol has one live entry or none,
      and its reference count is the successful subscribes minus the unsubscribes. */
  lemma RefcountIsBalance(actions: seq<Action>, symbol: string)
    ensures var s := Run(Init(), actions);
      && Tally(s.log, Subscribed(symbol)) - Tally(s.log, Unsubscribed(symbol)) == Refs(s.entries, symbol)
      && Tally(s.log, Created(symbol)) - Tally(s.log, Detached(symbol)) == (if symbol in s.entries then 1 else 0)
      && (symbol in s.entries <==> Refs(s.entries, symbol) >= 1)
  {
    RunKeepsInv(actions);
    var s := Run(Init(), actions);
    assert RefsTallied(s.entries, s.log, symbol) && LiveTallied(s.entries, s.log, symbol);
    assert symbol in s.entries ==> EntryFits(s.cells, symbol, s.entries[symbol]);
  }

  predicate Full(s: Pool) { forall i :: 0 <= i < |s.cells| ==> s.cells[i].claimed }

  ghost predicate SeenAt(actions: seq<Action>, seen: seq<bool>, i: nat) {
    i <= |actions| && Flags(Run(Init(), actions[..i]).cells) == seen
  }

  /** A scan's memory of the flags is a state the run went through. */
  lemma {:induction false} SeenIsHistory(actions: seq<Action>, t: nat) returns (i: nat)
    requires PcOf(Run(Init(), actions), t).Scanning?
    ensures SeenAt(actions, PcOf(Run(Init(), actions), t).seen, i)
    decreases |actions|
  {
    var before, a := actions[..|actions| - 1], actions[|actions| - 1];
    var s, s' := Run(Init(), before), Run(Init(), actions);
    if PcOf(s, t).Scanning? && PcOf(s, t).seen == PcOf(s', t).seen {
      i := SeenIsHistory(before, t);
      assert actions[..i] == before[..i];
    } else {
      i := |before|;
      StartOfScan(s, a, t);
      assert actions[..i] == before;
    }
  }

  lemma StartOfScan(s: Pool, a: Action, t: nat)
    requires PcOf(Step(s, a), t).Scanning?
    requires !(PcOf(s, t).Scanning? && PcOf(s, t).seen == PcOf(Step(s, a), t).seen)
    ensures PcOf(Step(s, a), t).seen == Flags(s.cells)
  {
    assert PcOf(Step(s, a), t) != PcOf(s, t);
  }

  lemma NewlyExhausted(s: Pool, a: Action, symbol: string)
    requires Inv(s) && Exhausted(symbol) in Step(s, a).log && Exhausted(symbol) !in s.log
    ensures a.Probe? && PcOf(s, a.t).Scanning? && PcOf(s, a.t).next == |s.cells|
    ensures forall i :: 0 <= i < |PcOf(s, a.t).seen| ==> PcOf(s, a.t).seen[i]
  {
    assert a.Probe? ==> Fits(s, PcOf(s, a.t));
  }

  /** "Pool exhausted" is only ever reported when all 32 slots were claimed at one moment of
      the run, although the scan looks at one slot at a time while others are released. */
  lemma {:induction false} ExhaustedMeansFull(actions: seq<Action>, symbol: string)
    requires Exhausted(symbol) in Run(Init(), actions).log
    ensures exists i :: 0 <= i <= |actions| && Full(Run(Init(), actions[..i]))
    decreases |actions|
  {
    var before := actions[..|actions| - 1];
    var s := Run(Init(), before);
    if Exhausted(symbol) in s.log {
      ExhaustedMeansFull(before, symbol);
      var i :| 0 <= i <= |before| && Full(Run(Init(), before[..i]));
      assert actions[..i] == before[..i];
    } else {
      var a := actions[|actions| - 1];
      RunKeepsInv(before);
      NewlyExhausted(s, a, symbol);
      var i := SeenIsHistory(before, a.t);
      var cells := Run(Init(), before[..i]).cells;
      assert forall j :: 0 <= j < |cells| ==> Flags(cells)[j] == cells[j].claimed;
      assert actions[..i] == before[..i];
    }
  }

  // ---------------------------------------------------------------- looking a slot up by name

  predicate Named(cells: seq<Cell>, symbol: string, k: nat) {
    k < |cells| && cells[k].claimed && cells[k].name == symbol
  }

  /** The backend takes the first claimed slot that carries the name. */
  ghost predicate FirstNamed(cells: seq<Cell>, symbol: string, k: nat) {
    Named(cells, symbol, k) && forall i: nat :: i < k ==> !Named(cells, symbol, i)
  }

  /** A slot on its way out that still answers to the symbol. */
  predicate Leaving(pc: Pc, symbol: string) {
    (pc.Joining? && pc.symbol == symbol) || (pc.Clearing? && symbol == "")
  }

  ghost predicate NoneLeavingBelow(s: Pool, symbol: string, k: nat) {
    forall t: nat :: Leaving(PcOf(s, t), symbol) ==> PcOf(s, t).slot > k
  }

  /** In every reachable state the backend finds a live symbol's own slot if and only if no
      entry of that symbol is being torn down in a lower slot. */
  lemma LookupFindsLiveIff(actions: seq<Action>, symbol: string)
    requires symbol in Run(Init(), actions).entries
    ensures var s := Run(Init(), actions);
      FirstNamed(s.cells, symbol, s.entries[symbol].slot) <==> NoneLeavingBelow(s, symbol, s.entries[symbol].slot)
  {
    var s := Run(Init(), actions);
    RunKeepsInv(actions);
    var k := s.entries[symbol].slot;
    assert Owns(s, Live(symbol), k) && EntryFits(s.cells, symbol, s.entries[symbol]);
    forall t: nat | Leaving(PcOf(s, t), symbol)
      ensures Named(s.cells, symbol, PcOf(s, t).slot) && PcOf(s, t).slot != k
    {
      assert Fits(s, PcOf(s, t)) && Owns(s, Worker(t), PcOf(s, t).slot);
    }
    forall i: nat | i != k && Named(s.cells, symbol, i)
      ensures exists t: nat :: Leaving(PcOf(s, t), symbol) && PcOf(s, t).slot == i
    {
      NamedByAnother(s, symbol, i);
    }
  }

  /** One look of the backend at one slot, at any moment of any run: a claimed slot that
      carries the name belongs to an entry of that symbol, live, starting or leaving. */
  lemma NamedBelongs(actions: seq<Action>, symbol: string, k: nat)
    requires Named(Run(Init(), actions).cells, symbol, k)
    ensures var s := Run(Init(), actions);
      exists o :: Owns(s, o, k) && (o.Live? ==> o.symbol == symbol)
                  && (o.Worker? ==> Leaving(PcOf(s, o.thread), symbol)
                                    || (PcOf(s, o.thread).Starting? && PcOf(s, o.thread).symbol == symbol))
  {
    var s := Run(Init(), actions);
    RunKeepsInv(actions);
    var o := s.cells[k].owner;
    assert Owns(s, o, k);
    assert o.Live? ==> EntryFits(s.cells, o.symbol, s.entries[o.symbol]);
    assert o.Worker? ==> Fits(s, PcOf(s, o.thread));
  }

  lemma NamedByAnother(s: Pool, symbol: string, i: nat)
    requires Inv(s) && symbol in s.entries && s.entries[symbol].slot != i && Named(s.cells, symbol, i)
    ensures s.cells[i].owner.Worker? && Leaving(PcOf(s, s.cells[i].owner.thread), symbol)
    ensures PcOf(s, s.cells[i].owner.thread).slot == i
  {
    var o := s.cells[i].owner;
    assert Owns(s, o, i);
    assert o.Live? ==> EntryFits(s.cells, o.symbol, s.entries[o.symbol]);
    assert o.Worker? ==> Fits(s, PcOf(s, o.thread));
  }

  // ---------------------------------------------------------------- an uninterrupted call

  lemma {:induction false} RunConcat(s: Pool, a: seq<Action>, b: seq<Action>)
    ensures Run(s, a + b) == Run(Run(s, a), b)
    decreases |b|
  {
    if b == [] {
      assert a + b == a;
    } else {
      RunConcat(s, a, b[..|b| - 1]);
      assert (a + b)[..|a + b| - 1] == a + b[..|b| - 1];
    }
  }

  lemma RunOne(s: Pool, a: Action)
    ensures Run(s, [a]) == Step(s, a)
  {
    assert [a][..0] == [];
  }

  lemma RunSnoc(s: Pool, a: seq<Action>, x: Action)
    ensures Run(s, a + [x]) == Step(Run(s, a), x)
  {
    assert (a + [x])[..|a + [x]| - 1] == a;
  }

  function Probes(t: nat, n: nat): seq<Action> { seq(n, _ => Probe(t)) }

  lemma {:induction false} ProbesPass(s: Pool, t: nat, n: nat)
    requires t in s.pcs && s.pcs[t].Scanning? && s.pcs[t].next == 0
    requires n <= |s.cells| && forall i :: 0 <= i < n ==> s.cells[i].claimed
    ensures Run(s, Probes(t, n)) == s.(pcs := s.pcs[t := s.pcs[t].(next := n)])
    decreases n
  {
    if n > 0 {
      ProbesPass(s, t, n - 1);
      assert Probes(t, n) == Probes(t, n - 1) + [Probe(t)];
      RunSnoc(s, Probes(t, n - 1), Probe(t));
    }
  }

  /** Through the lookup and the scan up to slot `n`. */
  function ScanScript(t: nat, symbol: string, n: nat): seq<Action> {
    [Check(t, symbol)] + [LookupDone(t, true)] + Probes(t, n)
  }

  lemma ScanRun(s: Pool, t: nat, symbol: string, n: nat)
    requires PcOf(s, t) == Idle && s.lock == None && symbol !in s.entries
    requires n <= |s.cells| && forall i :: 0 <= i < n ==> s.cells[i].claimed
    ensures Run(s, ScanScript(t, symbol, n))
         == s.(lock := Some(t), pcs := s.pcs[t := Scanning(symbol, n, Flags(s.cells))])
  {
    var one, two := [Check(t, symbol)], [LookupDone(t, true)];
    RunOne(s, one[0]);
    RunSnoc(s, one, two[0]);
    RunConcat(s, one + two, Probes(t, n));
    var s2 := Run(s, one + two);
    ProbesPass(s2, t, n);
    assert s2.pcs[t := s2.pcs[t].(next := n)] == s.pcs[t := Scanning(symbol, n, Flags(s.cells))];
  }

  function Opened(s: Pool, t: nat, symbol: string, k: nat): Pool
    requires k < |s.cells|
  {
    s.(entries := s.entries[symbol := Entry(1, k)], cells := s.cells[k := Cell(true, symbol, Live(symbol))],
       pcs := s.pcs[t := Idle], log := s.log + [Created(symbol), Subscribed(symbol)])
  }

  function OpenScript(t: nat, symbol: string, k: nat): seq<Action> {
    ScanScript(t, symbol, k) + [Probe(t)] + [Fill(t)] + [Fill(t)] + [Fill(t)]
  }

  lemma ThreeFills(s: Pool, t: nat, symbol: string, k: nat)
    requires k < |s.cells| && s.lock == None
    ensures Step(Step(Step(s.(lock := Some(t), pcs := s.pcs[t := Found(symbol, k)]), Fill(t)), Fill(t)), Fill(t))
         == Opened(s, t, symbol, k)
  {
    var s1 := s.(lock := Some(t), pcs := s.pcs[t := Found(symbol, k)]);
    var c := s.cells[k];
    var s2 := Step(s1, Fill(t));
    assert s2 == s.(lock := Some(t), pcs := s.pcs[t := Stamped(symbol, k)], cells := s.cells[k := c.(name := symbol)]);
    var s3 := Step(s2, Fill(t));
    assert s3 == s.(lock := Some(t), pcs := s.pcs[t := Starting(symbol, k)],
                    cells := s.cells[k := Cell(true, symbol, Worker(t))]);
  }

  lemma OpenRun(s: Pool, t: nat, symbol: string, k: nat)
    requires PcOf(s, t) == Idle && s.lock == None && symbol !in s.entries
    requires k < |s.cells| && !s.cells[k].claimed && forall i :: 0 <= i < k ==> s.cells[i].claimed
    requires |symbol| < NAME_WIDTH
    ensures Run(s, OpenScript(t, symbol, k)) == Opened(s, t, symbol, k)
  {
    var a := ScanScript(t, symbol, k);
    ScanRun(s, t, symbol, k);
    var a1 := a + [Probe(t)];
    RunSnoc(s, a, Probe(t));
    assert Run(s, a1) == s.(lock := Some(t), pcs := s.pcs[t := Found(symbol, k)]);
    RunSnoc(s, a1, Fill(t));
    RunSnoc(s, a1 + [Fill(t)], Fill(t));
    RunSnoc(s, a1 + [Fill(t)] + [Fill(t)], Fill(t));
    ThreeFills(s, t, symbol, k);
  }

  /** A scan that ends without a slot. */
  function Failed(s: Pool, t: nat, note: Note): Pool { s.(pcs := s.pcs[t := Idle], log := s.log + [note]) }

  lemma FailRun(s: Pool, t: nat, symbol: string, n: nat)
    requires PcOf(s, t) == Idle && s.lock == None && symbol !in s.entries
    requires n <= |s.cells| && forall i :: 0 <= i < n ==> s.cells[i].claimed
    requires n == |s.cells| || (!s.cells[n].claimed && |symbol| >= NAME_WIDTH)
    ensures Run(s, ScanScript(t, symbol, n) + [Probe(t)])
         == Failed(s, t, if n == |s.cells| then Exhausted(symbol) else Refused(symbol))
  {
    ScanRun(s, t, symbol, n);
    RunSnoc(s, ScanScript(t, symbol, n), Probe(t));
    assert s.pcs[t := Scanning(symbol, n, Flags(s.cells))][t := Idle] == s.pcs[t := Idle];
  }

  // ---------------------------------------------------------------- the old slot can be found

  /** Subscribe, unsubscribe, and subscribe again on another thread before the join is over. */
  function Resubscribe(symbol: string): seq<Action> {
    OpenScript(1, symbol, 0) + [Unsubscribe(1, symbol)] + OpenScript(2, symbol, 1)
  }

  /** After it, the backend's lookup finds the slot that is about to be released. */
  lemma LookupCanFindTheOldSlot(symbol: string)
    requires |symbol| < NAME_WIDTH
    ensures var s := Run(Init(), Resubscribe(symbol));
      && symbol in s.entries && s.entries[symbol].slot == 1
      && FirstNamed(s.cells, symbol, 0)
  {
    OpenRun(Init(), 1, symbol, 0);
    var s := Opened(Init(), 1, symbol, 0);
    RunSnoc(Init(), OpenScript(1, symbol, 0), Unsubscribe(1, symbol));
    var s' := Step(s, Unsubscribe(1, symbol));
    assert s'.cells == s.cells[0 := Cell(true, symbol, Worker(1))];
    OpenRun(s', 2, symbol, 1);
    RunConcat(Init(), OpenScript(1, symbol, 0) + [Unsubscribe(1, symbol)], OpenScript(2, symbol, 1));
  }
}
