/** Whole runs of the matching engine: the closed form of resting fills, conservation,
    agreement with the book and queue fairness. */
module MatchingRuns {
  import opened Basics
  import opened OrderBook
  import opened Walk
  import opened Matching

  datatype Op =
    | DeltaOp(key: Key, qty: int)
    | PlaceOp(id: nat, book: Book, side: Side, type': OrderType, price: int, size: int)
    | CancelOp(id: nat)

  function StepOp(m: Matcher, op: Op): Matcher {
    match op
    case DeltaOp(key, qty) => OnDelta(m, key, qty)
    case PlaceOp(id, b, side, type', price, size) => Place(m, b, id, side, type', price, size)
    case CancelOp(id) => Cancel(m, id)
  }

  function RunOps(m: Matcher, ops: seq<Op>): Matcher {
    if ops == [] then m else StepOp(RunOps(m, ops[..|ops| - 1]), ops[|ops| - 1])
  }

  /** What one operation fills of a resting order. */
  function OpFill(m: Matcher, op: Op, id: nat): int {
    if op.DeltaOp? then DeltaFill(m, op.key, op.qty, id) else 0
  }

  function RestingFills(m: Matcher, ops: seq<Op>, id: nat): int {
    if ops == [] then 0
    else RestingFills(m, ops[..|ops| - 1], id) + OpFill(RunOps(m, ops[..|ops| - 1]), ops[|ops| - 1], id)
  }

  /** Ids are fresh when placed, books are valid. */
  ghost predicate ValidOp(m: Matcher, op: Op) {
    op.PlaceOp? ==> op.id !in m.resting && ValidBook(op.book)
  }

  ghost predicate ValidRun(m: Matcher, ops: seq<Op>) {
    ops != [] ==> ValidRun(m, ops[..|ops| - 1]) && ValidOp(RunOps(m, ops[..|ops| - 1]), ops[|ops| - 1])
  }

  lemma StepKeepsWellFormed(m: Matcher, op: Op)
    requires WellFormed(m) && ValidOp(m, op)
    ensures WellFormed(StepOp(m, op))
  {
    match op
    case DeltaOp(key, qty) => DeltaKeepsWellFormed(m, key, qty);
    case PlaceOp(id, b, side, type', price, size) => PlaceKeepsWellFormed(m, b, id, side, type', price, size);
    case CancelOp(id) => CancelKeepsWellFormed(m, id);
  }

  /** In every run exactly the levels holding a resting order are tracked. */
  lemma {:induction false} RunKeepsWellFormed(m: Matcher, ops: seq<Op>)
    requires WellFormed(m) && ValidRun(m, ops)
    ensures WellFormed(RunOps(m, ops))
    decreases |ops|
  {
    if ops != [] {
      RunKeepsWellFormed(m, ops[..|ops| - 1]);
      StepKeepsWellFormed(RunOps(m, ops[..|ops| - 1]), ops[|ops| - 1]);
    }
  }

  // ---------------------------------------------------------------- the closed form

  /** The sizes a level was reported to have, in order. */
  function SizesAt(ops: seq<Op>, key: Key): seq<int> {
    if ops == [] then []
    else
      SizesAt(ops[..|ops| - 1], key)
      + (if ops[|ops| - 1].DeltaOp? && ops[|ops| - 1].key == key then [ops[|ops| - 1].qty] else [])
  }

  function Latest(start: int, sizes: seq<int>): int {
    if sizes == [] then start else sizes[|sizes| - 1]
  }

  /** The sum of all decreases along a series of sizes. */
  function Drops(start: int, sizes: seq<int>): int {
    if sizes == [] then 0
    else
      var pre := sizes[..|sizes| - 1];
      Drops(start, pre) + Max(0, Latest(start, pre) - sizes[|sizes| - 1])
  }

  /** An order after its level dropped by r in total, as long as that leaves something. */
  function After(o: Order, r: int): Order {
    o.(queueAhead := Max(0, o.queueAhead - r), remaining := o.remaining - FilledAfter(o, r))
  }

  function FilledAfter(o: Order, r: int): int { Min(o.remaining, Max(0, r - o.queueAhead)) }

  lemma AbsorbAfter(o: Order, r: int, d: int)
    requires o.remaining > 0 && o.queueAhead >= 0 && r >= 0 && d >= 0 && FilledAfter(o, r) < o.remaining
    ensures Absorb(After(o, r), d) == After(o, r + d)
    ensures FilledAfter(o, r) + FillSize(After(o, r), d) == FilledAfter(o, r + d)
    ensures FilledAfter(o, r + d) == o.remaining <==>
      FillSize(After(o, r), d) > 0 && FillSize(After(o, r), d) == After(o, r).remaining
  {
  }

  /** Nothing in the run cancels the order or reuses its id. */
  ghost predicate LeavesAlone(ops: seq<Op>, id: nat) {
    forall i :: 0 <= i < |ops| ==> !(ops[i].PlaceOp? && ops[i].id == id) && ops[i] != CancelOp(id)
  }

  lemma {:induction false} DropsNonNegative(start: int, sizes: seq<int>)
    ensures Drops(start, sizes) >= 0
    decreases |sizes|
  {
    if sizes != [] { DropsNonNegative(start, sizes[..|sizes| - 1]); }
  }

  /** Where order `o` stands in `m` after a total drop of `drop` and a last report of `latest`. */
  ghost predicate Stands(m: Matcher, id: nat, o: Order, drop: int, latest: int) {
    && (id in m.resting <==> FilledAfter(o, drop) < o.remaining)
    && (id in m.resting ==> m.resting[id] == After(o, drop) && o.key in m.last && m.last[o.key] == latest)
  }

  /** The resting fills of an order over a run, and where it stands after it, in closed form. */
  ghost predicate Follows(m: Matcher, m': Matcher, ops: seq<Op>, id: nat)
    requires id in m.resting && m.resting[id].key in m.last
  {
    var o := m.resting[id];
    var sizes := SizesAt(ops, o.key);
    var drop := Drops(m.last[o.key], sizes);
    RestingFills(m, ops, id) == FilledAfter(o, drop) && Stands(m', id, o, drop, Latest(m.last[o.key], sizes))
  }

  lemma OtherOpLeavesOrder(m: Matcher, op: Op, id: nat)
    requires WellFormed(m) && ValidOp(m, op) && id in m.resting
    requires !(op.PlaceOp? && op.id == id) && op != CancelOp(id)
    requires !(op.DeltaOp? && op.key == m.resting[id].key)
    ensures var m' := StepOp(m, op);
      var key := m.resting[id].key;
      && id in m'.resting && m'.resting[id] == m.resting[id]
      && key in m.last && key in m'.last && m'.last[key] == m.last[key] && OpFill(m, op, id) == 0
  {
    var key := m.resting[id].key;
    assert AnyRestingAt(m.resting, key);
    if op.CancelOp? && op.id in m.resting {
      assert id in (m.resting - {op.id});
      assert AnyRestingAt(m.resting - {op.id}, key);
    }
  }

  lemma OwnDeltaAbsorbs(m: Matcher, key: Key, qty: int, id: nat)
    requires WellFormed(m) && id in m.resting && m.resting[id].key == key
    ensures key in m.last
    ensures var d := Max(0, m.last[key] - qty);
      var o := m.resting[id];
      var m' := OnDelta(m, key, qty);
      && DeltaFill(m, key, qty, id) == FillSize(o, d)
      && (id in m'.resting <==> !(FillSize(o, d) > 0 && FillSize(o, d) == o.remaining))
      && (id in m'.resting ==> m'.resting[id] == Absorb(o, d) && key in m'.last && m'.last[key] == qty)
  {
    assert AnyRestingAt(m.resting, key);
    var m' := OnDelta(m, key, qty);
    if id in m'.resting && qty < m.last[key] {
      assert m'.resting[id].key == key;
      assert AnyRestingAt(m'.resting, key);
    }
  }

  lemma GoneStaysGone(m: Matcher, op: Op, id: nat)
    requires id !in m.resting && !(op.PlaceOp? && op.id == id)
    ensures id !in StepOp(m, op).resting && OpFill(m, op, id) == 0
  {
  }

  lemma OwnDeltaStands(m: Matcher, id: nat, o: Order, drop: int, latest: int, qty: int)
    requires WellFormed(m) && o.remaining > 0 && o.queueAhead >= 0 && drop >= 0 && Stands(m, id, o, drop, latest)
    ensures var d := Max(0, latest - qty);
      && Stands(OnDelta(m, o.key, qty), id, o, drop + d, qty)
      && FilledAfter(o, drop) + DeltaFill(m, o.key, qty, id) == FilledAfter(o, drop + d)
  {
    if id in m.resting {
      OwnDeltaAbsorbs(m, o.key, qty, id);
      AbsorbAfter(o, drop, Max(0, latest - qty));
    } else {
      GoneStaysGone(m, DeltaOp(o.key, qty), id);
    }
  }

  lemma OtherOpStands(m: Matcher, id: nat, o: Order, drop: int, latest: int, op: Op)
    requires WellFormed(m) && ValidOp(m, op) && Stands(m, id, o, drop, latest)
    requires !(op.PlaceOp? && op.id == id) && op != CancelOp(id) && !(op.DeltaOp? && op.key == o.key)
    ensures Stands(StepOp(m, op), id, o, drop, latest) && OpFill(m, op, id) == 0
  {
    if id in m.resting {
      OtherOpLeavesOrder(m, op, id);
    } else {
      GoneStaysGone(m, op, id);
    }
  }

  lemma HistorySnoc(start: int, ops: seq<Op>, op: Op, key: Key)
    ensures var sizes, sizes' := SizesAt(ops, key), SizesAt(ops + [op], key);
      if op.DeltaOp? && op.key == key then
        && Latest(start, sizes') == op.qty
        && Drops(start, sizes') == Drops(start, sizes) + Max(0, Latest(start, sizes) - op.qty)
      else sizes' == sizes
  {
    var sizes := SizesAt(ops, key);
    assert (ops + [op])[..|ops + [op]| - 1] == ops;
    if op.DeltaOp? && op.key == key {
      assert SizesAt(ops + [op], key) == sizes + [op.qty];
      assert (sizes + [op.qty])[..|sizes + [op.qty]| - 1] == sizes;
    }
  }

  lemma RestingFillsSnoc(m: Matcher, ops: seq<Op>, op: Op, id: nat)
    ensures RestingFills(m, ops + [op], id) == RestingFills(m, ops, id) + OpFill(RunOps(m, ops), op, id)
  {
    assert (ops + [op])[..|ops + [op]| - 1] == ops;
  }

  /** One operation, whatever the history was, seen from the order. */
  lemma StandsStep(m: Matcher, op: Op, id: nat, o: Order, drop: int, latest: int, drop': int, latest': int)
    requires WellFormed(m) && ValidOp(m, op) && o.remaining > 0 && o.queueAhead >= 0 && drop >= 0
    requires Stands(m, id, o, drop, latest)
    requires !(op.PlaceOp? && op.id == id) && op != CancelOp(id)
    requires if op.DeltaOp? && op.key == o.key then latest' == op.qty && drop' == drop + Max(0, latest - op.qty)
             else drop' == drop && latest' == latest
    ensures Stands(StepOp(m, op), id, o, drop', latest')
    ensures FilledAfter(o, drop) + OpFill(m, op, id) == FilledAfter(o, drop')
  {
    if op.DeltaOp? && op.key == o.key {
      OwnDeltaStands(m, id, o, drop, latest, op.qty);
    } else {
      OtherOpStands(m, id, o, drop, latest, op);
    }
  }

  lemma FollowsStep(m: Matcher, ops: seq<Op>, op: Op, id: nat)
    requires id in m.resting && m.resting[id].remaining > 0 && m.resting[id].queueAhead >= 0
    requires m.resting[id].key in m.last && WellFormed(RunOps(m, ops)) && ValidOp(RunOps(m, ops), op)
    requires Follows(m, RunOps(m, ops), ops, id)
    requires !(op.PlaceOp? && op.id == id) && op != CancelOp(id)
    ensures Follows(m, StepOp(RunOps(m, ops), op), ops + [op], id)
  {
    var o := m.resting[id];
    var start := m.last[o.key];
    var sizes, sizes' := SizesAt(ops, o.key), SizesAt(ops + [op], o.key);
    DropsNonNegative(start, sizes);
    HistorySnoc(start, ops, op, o.key);
    RestingFillsSnoc(m, ops, op, id);
    StandsStep(RunOps(m, ops), op, id, o, Drops(start, sizes), Latest(start, sizes), Drops(start, sizes'), Latest(start, sizes'));
  }

  /** Over any run, what a resting order gets is the total drop of its level since placement
      beyond the queue that was ahead of it, up to its size (FilledAfter); it rests until
      that is all of it, and meanwhile its queue is what the drop has left of it (After). */
  lemma {:induction false} RestingFillClosedForm(m: Matcher, ops: seq<Op>, id: nat)
    requires WellFormed(m) && ValidRun(m, ops) && id in m.resting && LeavesAlone(ops, id)
    ensures m.resting[id].key in m.last && Follows(m, RunOps(m, ops), ops, id)
    decreases |ops|
  {
    assert AnyRestingAt(m.resting, m.resting[id].key);
    if ops != [] {
      var pre, op := ops[..|ops| - 1], ops[|ops| - 1];
      RestingFillClosedForm(m, pre, id);
      RunKeepsWellFormed(m, pre);
      FollowsStep(m, pre, op, id);
      assert ops == pre + [op];
    }
  }

  // ---------------------------------------------------------------- conservation

  function RemainingOf(m: Matcher, id: nat): int { if id in m.resting then m.resting[id].remaining else 0 }

  /** For an accepted limit order and any later run that does not cancel it: what filled at
      once, what filled while resting and what remains add up to the requested size. */
  lemma FillsAreConserved(m: Matcher, b: Book, id: nat, side: Side, price: int, size: int, ops: seq<Op>)
    requires WellFormed(m) && ValidBook(b) && id !in m.resting && Rejection(Limit, price, size).None?
    requires ValidRun(Place(m, b, id, side, Limit, price, size), ops) && LeavesAlone(ops, id)
    ensures var m' := Place(m, b, id, side, Limit, price, size);
      && SyncFill(b, side, Limit, price, size) + RestingFills(m', ops, id) + RemainingOf(RunOps(m', ops), id) == size
      && SyncFill(b, side, Limit, price, size) >= 0 && RestingFills(m', ops, id) >= 0
  {
    var m' := Place(m, b, id, side, Limit, price, size);
    GreedyIsExact(side, Some(price), BookSideOf(b, Opposite(side)), size);
    PlaceKeepsWellFormed(m, b, id, side, Limit, price, size);
    if id in m'.resting {
      RestingFillClosedForm(m', ops, id);
      DropsNonNegative(m'.last[m'.resting[id].key], SizesAt(ops, m'.resting[id].key));
    } else {
      NeverRests(m', ops, id);
    }
  }

  lemma {:induction false} NeverRests(m: Matcher, ops: seq<Op>, id: nat)
    requires id !in m.resting && LeavesAlone(ops, id)
    ensures id !in RunOps(m, ops).resting && RestingFills(m, ops, id) == 0
    decreases |ops|
  {
    if ops != [] {
      NeverRests(m, ops[..|ops| - 1], id);
      GoneStaysGone(RunOps(m, ops[..|ops| - 1]), ops[|ops| - 1], id);
    }
  }

  // ---------------------------------------------------------------- book and matcher together

  /** The engine thread's state: the two sides and the matcher; and, as history, the tracked
      levels a clear met while they were not empty and that no delta has named since, and the
      resting orders that were placed at such a level. */
  datatype World = World(book: Book, m: Matcher, stale: set<Key>, jumpers: set<nat>)

  datatype Action =
    | UpdateLevel(side: Side, price: int, qty: nat)
    | ClearBook
    | PlaceOrder(id: nat, side: Side, type': OrderType, price: int, size: int)
    | CancelOrder(id: nat)

  function WithSide(b: Book, side: Side, ls: seq<OrderBook.Level>): Book {
    if side.Bid? then b.(bids := ls) else b.(asks := ls)
  }

  /** The levels an update names: its own and the one it evicts. */
  function NamedBy(side: Side, price: int, evicted: Option<int>): set<Key> {
    {Key(side, price)} + match evicted case None => {} case Some(p) => {Key(side, p)}
  }

  /** One level update with its callbacks: the matcher hears of the level, then of the
      eviction the update caused, both after the book has changed. */
  function StepLevel(w: World, side: Side, price: int, qty: nat): World {
    var r := AfterDelta(side, BookSideOf(w.book, side), price, qty);
    var m := OnDelta(w.m, Key(side, price), qty);
    var m' := match r.evicted case None => m case Some(p) => OnDelta(m, Key(side, p), 0);
    World(WithSide(w.book, side, r.levels).(lastSeq := w.book.lastSeq + if r.evicted.Some? then 2 else 1),
          m', (w.stale - NamedBy(side, price, r.evicted)) * m'.last.Keys, w.jumpers)
  }

  function NonEmpty(last: map<Key, int>): set<Key> { set key | key in last && last[key] != 0 }

  function JumpersAfter(w: World, id: nat, key: Key): set<nat> {
    if key in w.stale then w.jumpers + {id} else w.jumpers - {id}
  }

  function StepPlace(w: World, id: nat, side: Side, type': OrderType, price: int, size: int): World {
    w.(m := Place(w.m, w.book, id, side, type', price, size),
       jumpers := JumpersAfter(w, id, Key(side, price)))
  }

  function Step(w: World, a: Action): World {
    match a
    case UpdateLevel(side, price, qty) => StepLevel(w, side, price, qty)
    case ClearBook => w.(book := w.book.(bids := [], asks := []), stale := NonEmpty(w.m.last))
    case PlaceOrder(id, side, type', price, size) =>
      if id in w.m.resting then w else StepPlace(w, id, side, type', price, size)
    case CancelOrder(id) =>
      var m := Cancel(w.m, id);
      w.(m := m, stale := w.stale * m.last.Keys)
  }

  function Init(): World { World(Book([], [], 0), Matcher(map[], map[], 0), {}, {}) }

  function Run(actions: seq<Action>): World {
    if actions == [] then Init() else Step(Run(actions[..|actions| - 1]), actions[|actions| - 1])
  }

  function BookSize(b: Book, key: Key): int { SizeAt(key.side, BookSideOf(b, key.side), key.price) }

  /** The agreement at one tracked level. */
  predicate AgreesAt(size: int, last: int, isStale: bool) {
    last >= 0 && if isStale then size == 0 && last != 0 else last == size
  }

  /** A tracked size is the book's size at that level exactly when the level is not stale;
      the book holds nothing at a stale one. */
  ghost predicate Agrees(b: Book, m: Matcher, stale: set<Key>) {
    && stale <= m.last.Keys
    && forall key :: key in m.last ==> AgreesAt(BookSize(b, key), m.last[key], key in stale)
  }

  /** Nobody waits behind more than the level was last seen to hold. */
  ghost predicate Within(m: Matcher) {
    forall id :: id in m.resting ==>
      m.resting[id].key in m.last && m.resting[id].queueAhead <= m.last[m.resting[id].key]
  }

  ghost predicate Before(m: Matcher, x: nat, y: nat) {
    && x in m.resting && y in m.resting
    && m.resting[x].key == m.resting[y].key && m.resting[x].ordinal < m.resting[y].ordinal
  }

  /** Who came first at a level waits behind no more than who came later, unless the later one
      jumped the queue. */
  ghost predicate InOrder(m: Matcher, jumpers: set<nat>) {
    && (forall x, y :: Before(m, x, y) && y !in jumpers ==> m.resting[x].queueAhead <= m.resting[y].queueAhead)
    && (forall id :: id in m.resting ==> m.resting[id].ordinal < m.placements)
    && (forall id :: id in m.resting && id in jumpers ==> m.resting[id].queueAhead == 0)
  }

  ghost predicate Fair(m: Matcher, jumpers: set<nat>) { Within(m) && InOrder(m, jumpers) }

  ghost predicate Inv(w: World) {
    ValidBook(w.book) && WellFormed(w.m) && Agrees(w.book, w.m, w.stale) && Fair(w.m, w.jumpers)
  }

  // -- the book's sizes under one update

  lemma UpdatedSize(side: Side, ls: seq<OrderBook.Level>, price: int, qty: nat, p: int)
    requires ValidSide(side, ls)
    ensures var r := AfterDelta(side, ls, price, qty);
      && ValidSide(side, r.levels)
      && SizeAt(side, r.levels, p) ==
         if r.evicted == Some(p) then 0 else if p == price then qty else SizeAt(side, ls, p)
  {
    AfterDeltaRefinesMap(side, ls, price, qty);
    var r := AfterDelta(side, ls, price, qty);
    SizeAtIsMapLookup(side, r.levels, p);
    SizeAtIsMapLookup(side, ls, p);
  }

  lemma DeltaTracks(m: Matcher, key: Key, qty: int, k: Key)
    requires k in OnDelta(m, key, qty).last
    ensures k in m.last && OnDelta(m, key, qty).last[k] == if k == key then qty else m.last[k]
  {
  }

  /** What an update makes of a number kept per level. */
  function Renewed(side: Side, price: int, qty: nat, evicted: Option<int>, k: Key, was: int): int {
    if evicted.Some? && k == Key(side, evicted.value) then 0 else if k == Key(side, price) then qty else was
  }

  function Evicted(w: World, side: Side, price: int, qty: nat): Option<int> {
    AfterDelta(side, BookSideOf(w.book, side), price, qty).evicted
  }

  lemma LevelSizes(w: World, side: Side, price: int, qty: nat, k: Key)
    requires ValidBook(w.book)
    ensures BookSize(StepLevel(w, side, price, qty).book, k)
         == Renewed(side, price, qty, Evicted(w, side, price, qty), k, BookSize(w.book, k))
  {
    if k.side == side { UpdatedSize(side, BookSideOf(w.book, side), price, qty, k.price); }
  }

  lemma RenewedAgrees(side: Side, price: int, qty: nat, evicted: Option<int>, k: Key, size: int, last: int, stale: set<Key>)
    requires AgreesAt(size, last, k in stale)
    ensures AgreesAt(Renewed(side, price, qty, evicted, k, size), Renewed(side, price, qty, evicted, k, last),
                     k in stale - NamedBy(side, price, evicted))
  {
  }

  lemma LevelKeepsAgreement(w: World, side: Side, price: int, qty: nat)
    requires ValidBook(w.book) && Agrees(w.book, w.m, w.stale)
    ensures var w' := StepLevel(w, side, price, qty); Agrees(w'.book, w'.m, w'.stale)
  {
    var w', evicted := StepLevel(w, side, price, qty), Evicted(w, side, price, qty);
    assert w'.stale <= w'.m.last.Keys;
    forall k | k in w'.m.last
      ensures AgreesAt(BookSize(w'.book, k), w'.m.last[k], k in w'.stale)
    {
      LevelTracks(w, side, price, qty, k);
      LevelSizes(w, side, price, qty, k);
      RenewedAgrees(side, price, qty, evicted, k, BookSize(w.book, k), w.m.last[k], w.stale);
      assert k in w'.stale <==> k in w.stale - NamedBy(side, price, evicted);
    }
  }

  lemma LevelTracks(w: World, side: Side, price: int, qty: nat, k: Key)
    requires k in StepLevel(w, side, price, qty).m.last
    ensures k in w.m.last
    ensures StepLevel(w, side, price, qty).m.last[k]
         == Renewed(side, price, qty, Evicted(w, side, price, qty), k, w.m.last[k])
  {
    var evicted := Evicted(w, side, price, qty);
    var m := OnDelta(w.m, Key(side, price), qty);
    if evicted.Some? { DeltaTracks(m, Key(side, evicted.value), 0, k); }
    DeltaTracks(w.m, Key(side, price), qty, k);
  }

  lemma PlaceKeepsAgreement(w: World, id: nat, side: Side, type': OrderType, price: int, size: int)
    requires ValidBook(w.book) && Agrees(w.book, w.m, w.stale)
    ensures Agrees(w.book, Place(w.m, w.book, id, side, type', price, size), w.stale)
  {
    SizeAtNonNegative(side, BookSideOf(w.book, side), price);
  }

  // -- fairness under one operation

  lemma AbsorbKeepsOrder(o: Order, p: Order, reduction: int)
    requires o.queueAhead <= p.queueAhead && reduction >= 0
    ensures Absorb(o, reduction).queueAhead <= Absorb(p, reduction).queueAhead
    ensures Overflow(o, reduction) >= Overflow(p, reduction)
  {
  }

  lemma AbsorbStaysWithin(o: Order, prev: int, qty: int)
    requires 0 <= o.queueAhead <= prev && 0 <= qty < prev
    ensures 0 <= Absorb(o, prev - qty).queueAhead <= qty
  {
  }

  lemma ReducedOrder(m: Matcher, key: Key, qty: int, id: nat)
    requires id in OnDelta(m, key, qty).resting
    ensures id in m.resting
    ensures OnDelta(m, key, qty).resting[id] ==
      if m.resting[id].key == key && key in m.last && qty < m.last[key]
      then Absorb(m.resting[id], m.last[key] - qty) else m.resting[id]
    ensures OnDelta(m, key, qty).resting[id].key == m.resting[id].key
    ensures OnDelta(m, key, qty).resting[id].ordinal == m.resting[id].ordinal
  {
  }

  lemma DeltaKeepsWithin(m: Matcher, key: Key, qty: nat)
    requires WellFormed(m) && Within(m)
    ensures Within(OnDelta(m, key, qty))
  {
    var m' := OnDelta(m, key, qty);
    DeltaKeepsWellFormed(m, key, qty);
    forall id | id in m'.resting
      ensures m'.resting[id].key in m'.last && m'.resting[id].queueAhead <= m'.last[m'.resting[id].key]
    {
      ReducedOrder(m, key, qty, id);
      assert AnyRestingAt(m'.resting, m'.resting[id].key);
      DeltaTracks(m, key, qty, m'.resting[id].key);
      if m.resting[id].key == key && key in m.last && qty < m.last[key] {
        AbsorbStaysWithin(m.resting[id], m.last[key], qty);
      }
    }
  }

  lemma DeltaKeepsInOrder(m: Matcher, key: Key, qty: nat, jumpers: set<nat>)
    requires WellFormed(m) && InOrder(m, jumpers)
    ensures InOrder(OnDelta(m, key, qty), jumpers)
  {
    var m' := OnDelta(m, key, qty);
    forall id | id in m'.resting
      ensures m'.resting[id].ordinal < m'.placements && (id in jumpers ==> m'.resting[id].queueAhead == 0)
    {
      ReducedOrder(m, key, qty, id);
    }
    forall x, y | Before(m', x, y) && y !in jumpers
      ensures m'.resting[x].queueAhead <= m'.resting[y].queueAhead
    {
      ReducedOrder(m, key, qty, x);
      ReducedOrder(m, key, qty, y);
      assert Before(m, x, y);
      if key in m.last && qty < m.last[key] {
        AbsorbKeepsOrder(m.resting[x], m.resting[y], m.last[key] - qty);
      }
    }
  }

  lemma DeltaKeepsFair(m: Matcher, key: Key, qty: nat, jumpers: set<nat>)
    requires WellFormed(m) && Fair(m, jumpers)
    ensures WellFormed(OnDelta(m, key, qty)) && Fair(OnDelta(m, key, qty), jumpers)
  {
    DeltaKeepsWellFormed(m, key, qty);
    DeltaKeepsWithin(m, key, qty);
    DeltaKeepsInOrder(m, key, qty, jumpers);
  }

  lemma RestKeepsWithin(w: World, id: nat, side: Side, price: int, left: int)
    requires Within(w.m) && Agrees(w.book, w.m, w.stale) && id !in w.m.resting
    ensures Within(Rest(w.m, w.book, id, side, price, left))
  {
    var key := Key(side, price);
    assert key in w.m.last ==> AgreesAt(BookSize(w.book, key), w.m.last[key], key in w.stale);
  }

  lemma RestKeepsInOrder(w: World, id: nat, side: Side, price: int, left: int)
    requires Fair(w.m, w.jumpers) && Agrees(w.book, w.m, w.stale) && id !in w.m.resting
    ensures InOrder(Rest(w.m, w.book, id, side, price, left), JumpersAfter(w, id, Key(side, price)))
  {
    var m, key := w.m, Key(side, price);
    var m' := Rest(m, w.book, id, side, price, left);
    assert key in m.last ==> AgreesAt(BookSize(w.book, key), m.last[key], key in w.stale);
    forall x, y | Before(m', x, y) && y !in JumpersAfter(w, id, key)
      ensures m'.resting[x].queueAhead <= m'.resting[y].queueAhead
    {
      assert x != id;
      assert y != id ==> Before(m, x, y);
    }
  }

  lemma PlaceKeepsFair(w: World, id: nat, side: Side, type': OrderType, price: int, size: int)
    requires Fair(w.m, w.jumpers) && Agrees(w.book, w.m, w.stale) && id !in w.m.resting
    ensures Fair(Place(w.m, w.book, id, side, type', price, size), JumpersAfter(w, id, Key(side, price)))
  {
    var left := SyncWalk(w.book, side, type', price, size).left;
    RestKeepsWithin(w, id, side, price, left);
    RestKeepsInOrder(w, id, side, price, left);
  }

  lemma CancelKeepsFair(m: Matcher, id: nat, jumpers: set<nat>)
    requires WellFormed(m) && Fair(m, jumpers)
    ensures Fair(Cancel(m, id), jumpers)
  {
    if id in m.resting {
      var m' := Cancel(m, id);
      CancelKeepsWellFormed(m, id);
      forall x | x in m'.resting
        ensures m'.resting[x].key in m'.last && m'.resting[x].queueAhead <= m'.last[m'.resting[x].key]
      {
        assert AnyRestingAt(m'.resting, m'.resting[x].key);
      }
      assert forall x, y :: Before(m', x, y) ==> Before(m, x, y);
    }
  }

  // -- every step keeps the invariant

  lemma LevelKeepsBook(w: World, side: Side, price: int, qty: nat)
    requires ValidBook(w.book)
    ensures ValidBook(StepLevel(w, side, price, qty).book)
  {
    UpdatedSize(side, BookSideOf(w.book, side), price, qty, price);
  }

  lemma LevelKeepsMatcher(w: World, side: Side, price: int, qty: nat)
    requires WellFormed(w.m) && Fair(w.m, w.jumpers)
    ensures WellFormed(StepLevel(w, side, price, qty).m)
    ensures Fair(StepLevel(w, side, price, qty).m, w.jumpers)
  {
    var m := OnDelta(w.m, Key(side, price), qty);
    var r := AfterDelta(side, BookSideOf(w.book, side), price, qty);
    DeltaKeepsFair(w.m, Key(side, price), qty, w.jumpers);
    if r.evicted.Some? { DeltaKeepsFair(m, Key(side, r.evicted.value), 0, w.jumpers); }
  }

  lemma LevelKeepsInv(w: World, side: Side, price: int, qty: nat)
    requires Inv(w)
    ensures Inv(StepLevel(w, side, price, qty))
  {
    LevelKeepsBook(w, side, price, qty);
    LevelKeepsMatcher(w, side, price, qty);
    LevelKeepsAgreement(w, side, price, qty);
  }

  lemma PlaceKeepsInv(w: World, id: nat, side: Side, type': OrderType, price: int, size: int)
    requires Inv(w) && id !in w.m.resting
    ensures Inv(StepPlace(w, id, side, type', price, size))
  {
    PlaceKeepsWellFormed(w.m, w.book, id, side, type', price, size);
    PlaceKeepsAgreement(w, id, side, type', price, size);
    PlaceKeepsFair(w, id, side, type', price, size);
  }

  lemma ClearKeepsInv(w: World)
    requires Inv(w)
    ensures Inv(Step(w, ClearBook))
  {
    var w' := Step(w, ClearBook);
    assert forall key :: BookSize(w'.book, key) == 0;
  }

  lemma CancelKeepsAgreement(w: World, id: nat)
    requires Agrees(w.book, w.m, w.stale)
    ensures Agrees(w.book, Cancel(w.m, id), w.stale * Cancel(w.m, id).last.Keys)
  {
  }

  lemma StepKeepsInv(w: World, a: Action)
    requires Inv(w)
    ensures Inv(Step(w, a))
  {
    match a
    case UpdateLevel(side, price, qty) => LevelKeepsInv(w, side, price, qty);
    case ClearBook => ClearKeepsInv(w);
    case PlaceOrder(id, side, type', price, size) =>
      if id !in w.m.resting { PlaceKeepsInv(w, id, side, type', price, size); }
    case CancelOrder(id) =>
      CancelKeepsWellFormed(w.m, id);
      CancelKeepsAgreement(w, id);
      CancelKeepsFair(w.m, id, w.jumpers);
  }

  lemma {:induction false} RunKeepsInv(actions: seq<Action>)
    ensures Inv(Run(actions))
    decreases |actions|
  {
    if actions != [] {
      RunKeepsInv(actions[..|actions| - 1]);
      StepKeepsInv(Run(actions[..|actions| - 1]), actions[|actions| - 1]);
    }
  }

  /** In every run the tracked levels are exactly those with a resting order, and a tracked
      size is the book's, evictions included, if and only if the level is not stale: no clear
      met it while it was not empty, or a delta or an eviction has named it since. */
  lemma MatcherAgreesIff(actions: seq<Action>, key: Key)
    ensures var w := Run(actions);
      && (key in w.m.last <==> AnyRestingAt(w.m.resting, key))
      && (key in w.m.last ==>
            (w.m.last[key] == MapSize(MapOf(BookSideOf(w.book, key.side)), key.price) <==> key !in w.stale))
  {
    RunKeepsInv(actions);
    var w := Run(actions);
    SizeAtIsMapLookup(key.side, BookSideOf(w.book, key.side), key.price);
  }

  /** An order joins a bid of 5, the book is cleared, and the bid comes back with size 2. */
  function Reconnect(): seq<Action> {
    [UpdateLevel(Bid, 7, 5)] + [PlaceOrder(0, Bid, Limit, 7, 1)] + [ClearBook] + [UpdateLevel(Bid, 7, 2)]
  }

  lemma RunSnoc(actions: seq<Action>, a: Action)
    ensures Run(actions + [a]) == Step(Run(actions), a)
  {
    assert (actions + [a])[..|actions + [a]| - 1] == actions;
  }

  const BID7: Key := Key(Bid, 7)

  lemma OneBid(qty: nat)
    requires qty > 0
    ensures AfterDelta(Bid, [], 7, qty) == Applied([OrderBook.Level(7, qty)], None)
    ensures SizeAt(Bid, [OrderBook.Level(7, qty)], 7) == qty && SizeAt(Bid, [], 7) == 0
  {
    assert Placed(Bid, [], 7, qty) == [OrderBook.Level(7, qty)];
  }

  lemma BeforeTheClear()
    ensures var w := Run([UpdateLevel(Bid, 7, 5)] + [PlaceOrder(0, Bid, Limit, 7, 1)]);
      w == World(Book([OrderBook.Level(7, 5)], [], 1), WAITING, {}, {})
  {
    RunSnoc([], UpdateLevel(Bid, 7, 5));
    assert [] + [UpdateLevel(Bid, 7, 5)] == [UpdateLevel(Bid, 7, 5)];
    RunSnoc([UpdateLevel(Bid, 7, 5)], PlaceOrder(0, Bid, Limit, 7, 1));
    OneBid(5);
  }

  const WAITING: Matcher := Matcher(map[0 := Order(BID7, 1, 5, 1, 0)], map[BID7 := 5], 1)

  lemma QueueCut()
    ensures 0 in OnDelta(WAITING, BID7, 2).resting && OnDelta(WAITING, BID7, 2).resting[0].queueAhead == 2
  {
    var o := WAITING.resting[0];
    assert FillSize(o, 3) == 0 && Absorb(o, 3).queueAhead == 2;
  }

  /** The clear leaves the matcher with a size the book does not have, and when the bid comes
      back smaller the order's queue is cut by a reduction measured against the old book. */
  lemma ClearStrandsTheMatcher()
    ensures var cleared, back := Run(Reconnect()[..3]), Run(Reconnect());
      && BID7 in cleared.m.last && cleared.m.last[BID7] == 5 && BookSize(cleared.book, BID7) == 0
      && 0 in back.m.resting && back.m.resting[0].queueAhead == 2
  {
    var a2 := [UpdateLevel(Bid, 7, 5)] + [PlaceOrder(0, Bid, Limit, 7, 1)];
    BeforeTheClear();
    RunSnoc(a2, ClearBook);
    assert Reconnect()[..3] == a2 + [ClearBook];
    OneBid(2);
    RunSnoc(a2 + [ClearBook], UpdateLevel(Bid, 7, 2));
    QueueCut();
  }

  /** In every run nobody, alone at a level or not, has more queue ahead than the level was
      last seen to hold, which is what it holds unless it is stale. */
  lemma QueueWithinLevel(actions: seq<Action>, id: nat)
    requires id in Run(actions).m.resting
    ensures var w := Run(actions);
      var o := w.m.resting[id];
      && o.key in w.m.last && o.queueAhead <= w.m.last[o.key]
      && (o.key !in w.stale ==> o.queueAhead <= BookSize(w.book, o.key))
  {
    RunKeepsInv(actions);
  }

  /** In every run, of two orders at a level the earlier has no more queue ahead than the
      later, and so at least as much overflow on every reduction, if and only if the later was
      not placed at a stale level (where it found the queue empty) or the earlier has reached
      the front. */
  lemma QueueIsFairIff(actions: seq<Action>, x: nat, y: nat, reduction: nat)
    requires Before(Run(actions).m, x, y)
    ensures var w := Run(actions);
      var o, p := w.m.resting[x], w.m.resting[y];
      && (o.queueAhead <= p.queueAhead <==> y !in w.jumpers || o.queueAhead == 0)
      && (y !in w.jumpers ==> Overflow(o, reduction) >= Overflow(p, reduction))
  {
    RunKeepsInv(actions);
    var w := Run(actions);
    assert w.m.resting[x].queueAhead >= 0 && w.m.resting[y].queueAhead >= 0;
    if y !in w.jumpers { AbsorbKeepsOrder(w.m.resting[x], w.m.resting[y], reduction); }
  }

  /** An order placed after the clear passes one that was there before it. */
  lemma QueueCanBeJumped()
    ensures var w := Run(Reconnect()[..3] + [PlaceOrder(1, Bid, Limit, 7, 1)]);
      Before(w.m, 0, 1) && w.m.resting[0].queueAhead == 5 && w.m.resting[1].queueAhead == 0
  {
    var a2 := [UpdateLevel(Bid, 7, 5)] + [PlaceOrder(0, Bid, Limit, 7, 1)];
    BeforeTheClear();
    RunSnoc(a2, ClearBook);
    assert Reconnect()[..3] == a2 + [ClearBook];
    RunSnoc(a2 + [ClearBook], PlaceOrder(1, Bid, Limit, 7, 1));
    OneBid(1);
  }
}
