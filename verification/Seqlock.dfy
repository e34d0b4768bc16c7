/** The snapshot slot: a sequence lock whose payload is copied word by word, in any order,
    by one writer and one reader running concurrently. */
module Seqlock {

  const VERSION_MOD: nat := 0x1_0000_0000

  type Value<W> = seq<W>

  datatype Writer<W> = WriterIdle | Writing(value: Value<W>, pending: set<nat>)

  /** `bumpsAtLoad` is how often the version had been bumped when the reader loaded it. */
  datatype Reader<W> = ReaderIdle | Copying(before: nat, copy: map<nat, W>, bumpsAtLoad: nat)

  /** `published[0]` is the initial payload; every completed write appends one value. */
  datatype Slot<W> = Slot(version: nat, words: Value<W>, writer: Writer<W>, reader: Reader<W>,
                          published: seq<Value<W>>, bumps: nat)

  datatype Action<W> =
    | BeginWrite(value: Value<W>)
    | WriteWord(i: nat)
    | EndWrite
    | LoadVersion
    | ReadWord(j: nat)
    | Recheck

  function Init<W>(initial: Value<W>): Slot<W> {
    Slot(0, initial, WriterIdle, ReaderIdle, [initial], 0)
  }

  function Bump<W>(s: Slot<W>): Slot<W> {
    s.(version := (s.version + 1) % VERSION_MOD, bumps := s.bumps + 1)
  }

  function Indices(n: nat): (r: set<nat>)
    ensures forall i :: i in r <==> 0 <= i < n
  {
    if n == 0 then {} else Indices(n - 1) + {n - 1}
  }

  /** Steps that are not enabled leave the slot alone. */
  function Step<W>(s: Slot<W>, a: Action<W>): Slot<W> {
    match a
    case BeginWrite(value) =>
      if s.writer.WriterIdle? && |value| == |s.words|
      then Bump(s).(writer := Writing(value, Indices(|value|))) else s
    case WriteWord(i) =>
      if s.writer.Writing? && i in s.writer.pending && i < |s.words| && i < |s.writer.value|
      then s.(words := s.words[i := s.writer.value[i]],
              writer := s.writer.(pending := s.writer.pending - {i})) else s
    case EndWrite =>
      if s.writer.Writing? && s.writer.pending == {}
      then Bump(s).(writer := WriterIdle, published := s.published + [s.writer.value]) else s
    case LoadVersion =>
      if s.reader.ReaderIdle? && s.version % 2 == 0
      then s.(reader := Copying(s.version, map[], s.bumps)) else s
    case ReadWord(j) =>
      if s.reader.Copying? && j < |s.words|
      then s.(reader := s.reader.(copy := s.reader.copy[j := s.words[j]])) else s
    case Recheck =>
      if s.reader.Copying? then s.(reader := ReaderIdle) else s
  }

  function Run<W>(s: Slot<W>, actions: seq<Action<W>>): Slot<W> {
    if actions == [] then s else Step(Run(s, actions[..|actions| - 1]), actions[|actions| - 1])
  }

  /** The reader holds a whole copy and the recheck would find the version it started from. */
  predicate Accepts<W>(s: Slot<W>) {
    && s.reader.Copying?
    && s.reader.copy.Keys == Indices(|s.words|)
    && s.reader.before == s.version
  }

  predicate CopyIs<W(==)>(s: Slot<W>, value: Value<W>) {
    && s.reader.Copying? && s.reader.copy.Keys == Indices(|value|)
    && forall j :: 0 <= j < |value| ==> s.reader.copy[j] == value[j]
  }

  // ---------------------------------------------------------------- the invariant

  ghost predicate WriterInv<W>(s: Slot<W>) {
    && s.version == s.bumps % VERSION_MOD
    && |s.published| > 0
    && s.bumps == 2 * (|s.published| - 1) + (if s.writer.Writing? then 1 else 0)
    && (s.writer.WriterIdle? ==> s.words == s.published[|s.published| - 1])
    && (s.writer.Writing? ==>
          && |s.writer.value| == |s.words|
          && forall i :: 0 <= i < |s.words| && i !in s.writer.pending ==> s.words[i] == s.writer.value[i])
  }

  ghost predicate ReaderInv<W>(s: Slot<W>) {
    s.reader.Copying? ==>
      && s.reader.bumpsAtLoad <= s.bumps
      && s.reader.bumpsAtLoad % 2 == 0
      && s.reader.before == s.reader.bumpsAtLoad % VERSION_MOD
      && s.reader.copy.Keys <= Indices(|s.words|)
      && (s.reader.bumpsAtLoad == s.bumps ==>
            forall j :: j in s.reader.copy ==> s.reader.copy[j] == s.words[j])
  }

  ghost predicate Inv<W>(s: Slot<W>) { WriterInv(s) && ReaderInv(s) }

  lemma StepKeepsWriter<W>(s: Slot<W>, a: Action<W>)
    requires WriterInv(s)
    ensures WriterInv(Step(s, a))
  {
    match a
    case BeginWrite(value) =>
    case WriteWord(i) =>
    case EndWrite => assert s.writer.Writing? && s.writer.pending == {} ==> s.words == s.writer.value;
    case LoadVersion =>
    case ReadWord(j) =>
    case Recheck =>
  }

  lemma StepKeepsReader<W>(s: Slot<W>, a: Action<W>)
    requires WriterInv(s) && ReaderInv(s)
    ensures ReaderInv(Step(s, a))
  {
  }

  lemma StepKeepsInv<W>(s: Slot<W>, a: Action<W>)
    requires Inv(s)
    ensures Inv(Step(s, a))
  {
    StepKeepsWriter(s, a);
    StepKeepsReader(s, a);
  }

  lemma {:induction false} RunKeepsInv<W>(initial: Value<W>, actions: seq<Action<W>>)
    ensures Inv(Run(Init(initial), actions))
  {
    if actions != [] {
      RunKeepsInv(initial, actions[..|actions| - 1]);
      StepKeepsInv(Run(Init(initial), actions[..|actions| - 1]), actions[|actions| - 1]);
    }
  }

  lemma SameResidue(a: nat, b: nat)
    requires a <= b < a + VERSION_MOD && a % VERSION_MOD == b % VERSION_MOD
    ensures a == b
  {
  }

  /** An accepted read is exactly the last value completely written before the version was
      loaded, whatever the interleaving, as long as the version did not wrap during the read. */
  lemma AcceptedReadIsOneWrite<W>(initial: Value<W>, actions: seq<Action<W>>)
    requires Accepts(Run(Init(initial), actions))
    requires var s := Run(Init(initial), actions); s.bumps < s.reader.bumpsAtLoad + VERSION_MOD
    ensures var s := Run(Init(initial), actions);
      && s.reader.bumpsAtLoad / 2 < |s.published|
      && CopyIs(s, s.published[s.reader.bumpsAtLoad / 2])
      && s.reader.bumpsAtLoad / 2 == |s.published| - 1
  {
    RunKeepsInv(initial, actions);
    var s := Run(Init(initial), actions);
    SameResidue(s.reader.bumpsAtLoad, s.bumps);
  }

  // ---------------------------------------------------------------- why the bound is needed

  lemma {:induction false} RunConcat<W>(s: Slot<W>, a: seq<Action<W>>, b: seq<Action<W>>)
    ensures Run(s, a + b) == Run(Run(s, a), b)
    decreases |b|
  {
    if b == [] {
      assert a + b == a;
    } else {
      RunConcat(s, a, b[..|b| - 1]);
      assert (a + b)[..|a + b| - 1] == a + b[..|b| - 1];
    }
  }

  function WriteScript<W>(x: W, y: W): seq<Action<W>> {
    [] + [BeginWrite([x, y])] + [WriteWord(0)] + [WriteWord(1)] + [EndWrite]
  }

  function Repeat<W>(script: seq<Action<W>>, n: nat): seq<Action<W>> {
    if n == 0 then [] else Repeat(script, n - 1) + script
  }

  lemma RunSnoc<W>(s: Slot<W>, a: seq<Action<W>>, last: Action<W>)
    ensures Run(s, a + [last]) == Step(Run(s, a), last)
  {
    assert (a + [last])[..|a + [last]| - 1] == a;
  }

  /** One uninterrupted write of a two-word payload. */
  function Write<W>(s: Slot<W>, x: W, y: W): Slot<W> {
    Step(Step(Step(Step(s, BeginWrite([x, y])), WriteWord(0)), WriteWord(1)), EndWrite)
  }

  lemma WriteScriptSteps<W>(s: Slot<W>, x: W, y: W)
    ensures Run(s, WriteScript(x, y)) == Write(s, x, y)
  {
    RunSnoc(s, [], BeginWrite([x, y]));
    RunSnoc(s, [] + [BeginWrite([x, y])], WriteWord(0));
    RunSnoc(s, [] + [BeginWrite([x, y])] + [WriteWord(0)], WriteWord(1));
    RunSnoc(s, [] + [BeginWrite([x, y])] + [WriteWord(0)] + [WriteWord(1)], EndWrite);
  }

  lemma WriteSteps<W>(s: Slot<W>, x: W, y: W)
    requires s.writer.WriterIdle? && |s.words| == 2 && s.version < VERSION_MOD
    ensures Write(s, x, y) == Replaced(s, x, y)
  {
    TwoWords(Step(s, BeginWrite([x, y])), x, y);
  }

  lemma WriteScriptIsReplace<W>(s: Slot<W>, x: W, y: W)
    requires s.writer.WriterIdle? && |s.words| == 2 && s.version < VERSION_MOD
    ensures Run(s, WriteScript(x, y)) == Replaced(s, x, y)
  {
    WriteScriptSteps(s, x, y);
    WriteSteps(s, x, y);
  }

  lemma TwoWords<W>(s: Slot<W>, x: W, y: W)
    requires |s.words| == 2 && s.writer == Writing([x, y], Indices(2))
    ensures Step(Step(s, WriteWord(0)), WriteWord(1)) == s.(words := [x, y], writer := Writing([x, y], {}))
  {
    assert Indices(2) == {0, 1} && {0, 1} - {0} == {1} && {1} - {1} == {};
    assert s.words[0 := x] == [x, s.words[1]] && [x, s.words[1]][1 := y] == [x, y];
    var s2 := Step(s, WriteWord(0));
    assert s2 == s.(words := [x, s.words[1]], writer := Writing([x, y], {1}));
  }

  /** The slot after n uninterrupted writes of one value. */
  function Written<W>(s: Slot<W>, x: W, y: W, n: nat): Slot<W> {
    if n == 0 then s
    else Slot((s.version + 2 * n) % VERSION_MOD, [x, y], WriterIdle, s.reader,
              s.published + seq(n, _ => [x, y]), s.bumps + 2 * n)
  }

  lemma BumpTwice(v: nat, n: nat)
    ensures ((v + 2 * n) % VERSION_MOD + 2) % VERSION_MOD == (v + 2 * (n + 1)) % VERSION_MOD
  {
  }

  /** The effect of one whole write as a record update, no steps in sight. */
  function Replaced<W>(s: Slot<W>, x: W, y: W): Slot<W> {
    Slot((s.version + 2) % VERSION_MOD, [x, y], WriterIdle, s.reader, s.published + [[x, y]], s.bumps + 2)
  }

  lemma WrittenReplaced<W>(s: Slot<W>, x: W, y: W, n: nat)
    requires s.version < VERSION_MOD
    ensures Replaced(Written(s, x, y, n), x, y) == Written(s, x, y, n + 1)
  {
    BumpTwice(s.version, n);
    assert Written(s, x, y, n).published + [[x, y]] == s.published + seq(n + 1, _ => [x, y]);
  }

  lemma WrittenOnceMore<W>(s: Slot<W>, x: W, y: W, n: nat)
    requires s.writer.WriterIdle? && |s.words| == 2 && s.version < VERSION_MOD
    ensures Run(Written(s, x, y, n), WriteScript(x, y)) == Written(s, x, y, n + 1)
  {
    WriteScriptIsReplace(Written(s, x, y, n), x, y);
    WrittenReplaced(s, x, y, n);
  }

  lemma {:induction false} RunRepeat<W>(s: Slot<W>, x: W, y: W, n: nat)
    requires s.writer.WriterIdle? && |s.words| == 2 && s.version < VERSION_MOD
    ensures Run(s, Repeat(WriteScript(x, y), n)) == Written(s, x, y, n)
    decreases n
  {
    if n > 0 {
      RunRepeat(s, x, y, n - 1);
      RunConcat(s, Repeat(WriteScript(x, y), n - 1), WriteScript(x, y));
      WrittenOnceMore(s, x, y, n - 1);
    }
  }

  /** With exactly one full wrap of the 32-bit version during a read, a torn copy is accepted:
      here one word of the initial value and one of the value written 2^31 times since. */
  lemma WrappedReadCanTear<W>(x: W, y: W)
    requires x != y
    ensures exists actions ::
      var s := Run(Init([x, x]), actions);
      && Accepts(s)
      && s.bumps == s.reader.bumpsAtLoad + VERSION_MOD
      && forall v :: v in s.published ==> !CopyIs(s, v)
  {
    var half := VERSION_MOD / 2;
    var init := Init([x, x]);
    var first, writes := [] + [LoadVersion] + [ReadWord(0)], Repeat(WriteScript(y, y), half);
    HalfRead(x);
    var s0 := Run(init, first);
    RunRepeat(s0, y, y, half);
    RunConcat(init, first, writes);
    RunSnoc(init, first + writes, ReadWord(1));
    OtherHalf(s0, x, y);
    var s := Run(init, first + writes + [ReadWord(1)]);
    TornCopy(s, x, y);
  }

  lemma HalfRead<W>(x: W)
    ensures Run(Init([x, x]), [] + [LoadVersion] + [ReadWord(0)])
         == Init([x, x]).(reader := Copying(0, map[0 := x], 0))
  {
    RunSnoc(Init([x, x]), [], LoadVersion);
    RunSnoc(Init([x, x]), [] + [LoadVersion], ReadWord(0));
  }

  /** After 2^31 writes the version is back where it was. */
  lemma OtherHalf<W>(s0: Slot<W>, x: W, y: W)
    requires s0 == Init([x, x]).(reader := Copying(0, map[0 := x], 0))
    ensures var s := Step(Written(s0, y, y, VERSION_MOD / 2), ReadWord(1));
      && s.words == [y, y] && s.version == 0 && s.bumps == VERSION_MOD
      && s.reader == Copying(0, map[0 := x, 1 := y], 0)
      && forall v :: v in s.published ==> v == [x, x] || v == [y, y]
  {
  }

  lemma TornCopy<W>(s: Slot<W>, x: W, y: W)
    requires x != y && |s.words| == 2 && s.reader.Copying? && s.reader.copy == map[0 := x, 1 := y]
    requires forall v :: v in s.published ==> v == [x, x] || v == [y, y]
    ensures s.reader.copy.Keys == Indices(2)
    ensures forall v :: v in s.published ==> !CopyIs(s, v)
  {
    assert Indices(2) == {0, 1};
  }

  // ---------------------------------------------------------------- the slot itself

  /** The writer has copied the first i words of its value. */
  ghost function Copied<W>(s: Slot<W>, words: seq<W>, value: seq<W>, i: nat): Slot<W> {
    s.(words := words, writer := Writing(value, Indices(|value|) - Indices(i)))
  }

  lemma CopyOne<W>(s: Slot<W>, words: seq<W>, value: seq<W>, i: nat)
    requires i < |value| == |words|
    ensures Step(Copied(s, words, value, i), WriteWord(i)) == Copied(s, words[i := value[i]], value, i + 1)
  {
    assert Indices(|value|) - Indices(i) - {i} == Indices(|value|) - Indices(i + 1);
  }

  /** `slot` is the state of the step system that the fields are in. */
  class SeqlockSlot<W(0)> {
    var version: nat
    const words: array<W>
    ghost var slot: Slot<W>

    constructor (initial: seq<W>, blank: W)
      ensures Valid() && fresh(words) && slot == Init(initial)
    {
      version := 0;
      words := new W[|initial|](i => if 0 <= i < |initial| then initial[i] else blank);
      slot := Init(initial);
      new;
      assert words[..] == initial;
    }

    ghost predicate Valid()
      reads this, words
    {
      version == slot.version && words[..] == slot.words
    }

    /** Odd while the words are copied, even again after. */
    method Write(value: seq<W>) returns (ghost script: seq<Action<W>>)
      requires Valid() && slot.writer.WriterIdle? && |value| == words.Length
      modifies this, words
      ensures Valid() && slot.writer.WriterIdle? && slot == Run(old(slot), script)
      ensures words[..] == value && slot.published == old(slot.published) + [value]
      ensures version == ((old(version) + 1) % VERSION_MOD + 1) % VERSION_MOD
    {
      script := [] + [BeginWrite(value)];
      RunSnoc(slot, [], BeginWrite(value));
      version := (version + 1) % VERSION_MOD;
      slot := Step(slot, BeginWrite(value));
      script := CopyIn(old(slot), script, value);
      RunSnoc(old(slot), script, EndWrite);
      script := script + [EndWrite];
      version := (version + 1) % VERSION_MOD;
      slot := Step(slot, EndWrite);
    }

    method CopyIn(ghost start: Slot<W>, ghost before: seq<Action<W>>, value: seq<W>) returns (ghost script: seq<Action<W>>)
      requires Valid() && slot == Run(start, before)
      requires |value| == words.Length && slot.writer == Writing(value, Indices(|value|))
      modifies this`slot, words
      ensures Valid() && slot == Run(start, script) && words[..] == value
      ensures slot == old(slot).(words := value, writer := Writing(value, {}))
    {
      script := before;
      ghost var s0 := slot;
      for i := 0 to |value|
        invariant forall j :: 0 <= j < i ==> words[j] == value[j]
        invariant slot == Run(start, script)
        invariant slot == Copied(s0, words[..], value, i)
      {
        CopyOne(s0, words[..], value, i);
        RunSnoc(start, script, WriteWord(i));
        script := script + [WriteWord(i)];
        slot := Step(slot, WriteWord(i));
        words[i] := value[i];
      }
      assert words[..] == value;
      assert Indices(|value|) - Indices(|value|) == {};
    }
  }

  // ---------------------------------------------------------------- the reader

  predicate IsWriterStep<W>(a: Action<W>) { a.BeginWrite? || a.WriteWord? || a.EndWrite? }

  predicate WriterScript<W>(script: seq<Action<W>>) {
    forall i :: 0 <= i < |script| ==> IsWriterStep(script[i])
  }

  lemma {:induction false} WriterLeavesReader<W>(s: Slot<W>, script: seq<Action<W>>)
    requires WriterScript(script) && Inv(s)
    ensures Inv(Run(s, script)) && Run(s, script).reader == s.reader
    ensures |Run(s, script).words| == |s.words| && Run(s, script).bumps >= s.bumps
    decreases |script|
  {
    if script != [] {
      WriterLeavesReader(s, script[..|script| - 1]);
      StepKeepsInv(Run(s, script[..|script| - 1]), script[|script| - 1]);
    }
  }

  lemma AcceptedIsCurrent<W>(s: Slot<W>)
    requires Inv(s) && Accepts(s) && s.bumps < s.reader.bumpsAtLoad + VERSION_MOD
    ensures CopyIs(s, s.published[|s.published| - 1])
  {
    SameResidue(s.reader.bumpsAtLoad, s.bumps);
  }

  const ATTEMPTS: nat := 1000

  /** The backend's reader, with the engine writing between any two of its accesses. */
  class SnapshotReader<W> {
    var slot: Slot<W>
    /** What the engine will do, burst by burst. */
    var bursts: seq<seq<Action<W>>>

    ghost predicate Valid() reads this {
      Inv(slot) && forall i :: 0 <= i < |bursts| ==> WriterScript(bursts[i])
    }

    constructor (start: Slot<W>, engine: seq<seq<Action<W>>>)
      requires Inv(start) && forall i :: 0 <= i < |engine| ==> WriterScript(engine[i])
      ensures Valid() && slot == start && bursts == engine
    {
      slot, bursts := start, engine;
    }

    /** The engine gets a turn. */
    method Engine()
      requires Valid()
      modifies this
      ensures Valid() && slot.reader == old(slot.reader)
      ensures |slot.words| == |old(slot.words)| && slot.bumps >= old(slot.bumps)
    {
      if bursts != [] {
        WriterLeavesReader(slot, bursts[0]);
        slot := Run(slot, bursts[0]);
        bursts := bursts[1..];
      }
    }

    /** Copy the payload word by word. */
    method CopyOut(n: nat) returns (value: seq<W>)
      requires Valid() && slot.reader.Copying? && slot.reader.copy == map[] && n == |slot.words|
      modifies this
      ensures Valid() && slot.reader.Copying? && |slot.words| == n && slot.bumps >= old(slot.bumps)
      ensures slot.reader.before == old(slot.reader.before) && slot.reader.bumpsAtLoad == old(slot.reader.bumpsAtLoad)
      ensures slot.reader.copy.Keys == Indices(n) && |value| == n
      ensures forall i :: 0 <= i < n ==> slot.reader.copy[i] == value[i]
    {
      value := [];
      for j := 0 to n
        invariant Valid() && slot.reader.Copying? && |slot.words| == n && slot.bumps >= old(slot.bumps)
        invariant slot.reader.before == old(slot.reader.before) && slot.reader.bumpsAtLoad == old(slot.reader.bumpsAtLoad)
        invariant slot.reader.copy.Keys == Indices(j) && |value| == j
        invariant forall i :: 0 <= i < j ==> slot.reader.copy[i] == value[i]
      {
        Engine();
        StepKeepsInv(slot, ReadWord(j));
        value := value + [slot.words[j]];
        slot := Step(slot, ReadWord(j));
      }
    }

    /** One attempt: given up while a write is in progress or if the version moved on. */
    method TryRead() returns (ok: bool, value: seq<W>)
      requires Valid() && slot.reader.ReaderIdle?
      modifies this
      ensures Valid() && slot.reader.ReaderIdle? && slot.bumps >= old(slot.bumps)
      ensures ok && slot.bumps < old(slot.bumps) + VERSION_MOD ==> value == slot.published[|slot.published| - 1]
      ensures old(slot.version) % 2 == 0 && slot.bumps == old(slot.bumps) ==> ok
    {
      Engine();
      var before := slot.version;
      if before % 2 == 1 {
        return false, [];
      }
      StepKeepsInv(slot, LoadVersion);
      slot := Step(slot, LoadVersion);
      value := CopyOut(|slot.words|);
      Engine();
      ok := slot.version == before;
      if ok && slot.bumps < old(slot.bumps) + VERSION_MOD {
        AcceptedIsCurrent(slot);
        assert value == slot.published[|slot.published| - 1];
      }
      StepKeepsInv(slot, Recheck);
      slot := Step(slot, Recheck);
    }

    /** Up to a thousand attempts. Whatever the engine writes meanwhile, a value that comes
        back is the one last completely written, unless the version wrapped around. */
    method Read() returns (ok: bool, value: seq<W>)
      requires Valid() && slot.reader.ReaderIdle?
      modifies this
      ensures Valid() && slot.reader.ReaderIdle?
      ensures ok && slot.bumps < old(slot.bumps) + VERSION_MOD ==> value == slot.published[|slot.published| - 1]
      ensures old(slot.version) % 2 == 0 && slot.bumps == old(slot.bumps) ==> ok
    {
      ok, value := false, [];
      for i := 0 to ATTEMPTS
        invariant Valid() && slot.reader.ReaderIdle? && slot.bumps >= old(slot.bumps)
        invariant i > 0 && old(slot.version) % 2 == 0 ==> slot.bumps > old(slot.bumps)
      {
        ok, value := TryRead();
        if ok {
          return;
        }
      }
    }
  }
}
