/** The order and fill tables of the backend, and the status machine driven by fills. */
module OrderTable {
  import opened OrderBook

  datatype Status = Pending | Open | PartiallyFilled | FilledUp | Unfilled | Rejected | Canceled

  datatype Row = Row(engineId: Option<nat>, size: int, expected: int, status: Status)

  datatype FillRecord = FillRecord(orderId: nat, price: int, size: int)

  /** Order ids are handed out in sequence; `fills` is in insertion order. */
  datatype Table = Table(rows: map<nat, Row>, fills: seq<FillRecord>, nextId: nat)

  datatype Op =
    | Create(size: int)
    | Accept(id: nat, engineId: nat, expected: int)
    | Reject(id: nat)
    | Cancel(id: nat)
    | RecordFill(engineId: nat, price: int, fillSize: int)
    | Restart

  const EMPTY: Table := Table(map[], [], 0)

  // ---------------------------------------------------------------- the statements

  function UpdateRow(t: Table, id: nat, row: Row): Table { t.(rows := t.rows[id := row]) }

  function CreatePending(t: Table, size: int): Table {
    Table(t.rows[t.nextId := Row(None, size, 0, Pending)], t.fills, t.nextId + 1)
  }

  /** Accepting with nothing expected to fill is final: the order is unfilled. */
  function MarkAccepted(t: Table, id: nat, engineId: nat, expected: int): Table {
    if id !in t.rows then t
    else if expected <= 0 then UpdateRow(t, id, t.rows[id].(status := Unfilled, engineId := None, expected := expected))
    else UpdateRow(t, id, t.rows[id].(status := Open, engineId := Some(engineId), expected := expected))
  }

  function MarkRejected(t: Table, id: nat): Table {
    if id !in t.rows then t else UpdateRow(t, id, t.rows[id].(status := Rejected))
  }

  function MarkCanceled(t: Table, id: nat): Table {
    if id !in t.rows then t else UpdateRow(t, id, t.rows[id].(status := Canceled, engineId := None))
  }

  predicate Live(s: Status) { s.Open? || s.PartiallyFilled? }

  function CancelAllOpen(t: Table): Table {
    t.(rows := map id | id in t.rows ::
         if t.rows[id].status.Pending? || Live(t.rows[id].status)
         then t.rows[id].(status := Canceled, engineId := None) else t.rows[id])
  }

  /** The first row carrying the engine id, in row order. */
  function Lookup(rows: map<nat, Row>, engineId: nat, n: nat): (found: Option<nat>)
    ensures found.Some? ==> found.value in rows && found.value < n && rows[found.value].engineId == Some(engineId)
    ensures found.None? ==> forall id :: id in rows && id < n ==> rows[id].engineId != Some(engineId)
  {
    if n == 0 then None
    else
      var before := Lookup(rows, engineId, n - 1);
      if before.Some? then before
      else if n - 1 in rows && rows[n - 1].engineId == Some(engineId) then Some(n - 1)
      else None
  }

  function TotalFor(fills: seq<FillRecord>, id: nat): int {
    if fills == [] then 0
    else
      TotalFor(fills[..|fills| - 1], id)
      + (if fills[|fills| - 1].orderId == id then fills[|fills| - 1].size else 0)
  }

  function AfterFill(row: Row, total: int): Row {
    if total >= row.expected then row.(status := FilledUp, engineId := None)
    else row.(status := PartiallyFilled)
  }

  /** Insert the fill, sum the order's fills, set its status; unknown ids change nothing. */
  function Recorded(t: Table, engineId: nat, price: int, size: int): Table {
    match Lookup(t.rows, engineId, t.nextId)
    case None => t
    case Some(id) =>
      var fills := t.fills + [FillRecord(id, price, size)];
      Table(t.rows[id := AfterFill(t.rows[id], TotalFor(fills, id))], fills, t.nextId)
  }

  function Step(t: Table, op: Op): Table {
    match op
    case Create(size) => CreatePending(t, size)
    case Accept(id, engineId, expected) => MarkAccepted(t, id, engineId, expected)
    case Reject(id) => MarkRejected(t, id)
    case Cancel(id) => MarkCanceled(t, id)
    case RecordFill(engineId, price, size) => Recorded(t, engineId, price, size)
    case Restart => CancelAllOpen(t)
  }

  function Run(t: Table, ops: seq<Op>): Table {
    if ops == [] then t else Step(Run(t, ops[..|ops| - 1]), ops[|ops| - 1])
  }

  // ---------------------------------------------------------------- what callers do

  ghost predicate EngineIdFree(t: Table, engineId: nat) {
    forall id :: id in t.rows ==> t.rows[id].engineId != Some(engineId)
  }

  /** The router accepts or rejects pending orders, engine ids are fresh, fills positive. */
  ghost predicate Allowed(t: Table, op: Op) {
    match op
    case Accept(id, engineId, _) => id in t.rows && t.rows[id].status.Pending? && EngineIdFree(t, engineId)
    case Reject(id) => id in t.rows && t.rows[id].status.Pending?
    case RecordFill(_, _, size) => size > 0
    case _ => true
  }

  ghost predicate AllowedRun(t: Table, ops: seq<Op>) {
    ops != [] ==> AllowedRun(t, ops[..|ops| - 1]) && Allowed(Run(t, ops[..|ops| - 1]), ops[|ops| - 1])
  }

  // ---------------------------------------------------------------- the invariant

  /** What a row's status says about the total filled so far. */
  ghost predicate StatusFits(row: Row, total: int) {
    match row.status
    case Pending => total == 0
    case Open => total == 0 && row.expected > 0
    case PartiallyFilled => 0 < total < row.expected
    case FilledUp => 0 < row.expected <= total
    case Unfilled => total == 0
    case Rejected => total == 0
    case Canceled => true
  }

  /** A row has an engine id exactly while it is open or partially filled. */
  predicate IdFits(row: Row) { row.engineId.Some? <==> Live(row.status) }

  predicate SameEngineId(a: Row, b: Row) { a.engineId.Some? && a.engineId == b.engineId }

  /** Row ids were handed out, rows and engine ids fit, and no engine id is on two rows. */
  ghost predicate IdInv(t: Table) {
    && (forall id :: id in t.rows ==> id < t.nextId && IdFits(t.rows[id]))
    && (forall x, y :: x in t.rows && y in t.rows && SameEngineId(t.rows[x], t.rows[y]) ==> x == y)
  }

  ghost predicate StatusInv(t: Table) {
    && (forall id :: id in t.rows ==> StatusFits(t.rows[id], TotalFor(t.fills, id)))
    && (forall i :: 0 <= i < |t.fills| ==> t.fills[i].orderId < t.nextId)
  }

  ghost predicate Inv(t: Table) { IdInv(t) && StatusInv(t) }

  // ---------------------------------------------------------------- engine ids

  /** An accept brings an id no other row has; a reject meets a row without one. */
  predicate SafeForIds(t: Table, op: Op) {
    match op
    case Accept(id, engineId, expected) =>
      id in t.rows && expected > 0 ==> forall x :: x in t.rows && x != id ==> t.rows[x].engineId != Some(engineId)
    case Reject(id) => id in t.rows ==> t.rows[id].engineId.None?
    case _ => true
  }

  lemma SafeStepKeepsIds(t: Table, op: Op)
    requires IdInv(t) && SafeForIds(t, op)
    ensures IdInv(Step(t, op))
  {
  }

  /** One operation on any table, rows of any status and fills of any size: engine ids keep
      marking exactly the live rows, each its own, if and only if the operation is safe. */
  lemma StepKeepsIdsIff(t: Table, op: Op)
    requires IdInv(t)
    ensures IdInv(Step(t, op)) <==> SafeForIds(t, op)
  {
    if SafeForIds(t, op) {
      SafeStepKeepsIds(t, op);
    } else if op.Accept? {
      var x :| x in t.rows && x != op.id && t.rows[x].engineId == Some(op.engineId);
      var t' := Step(t, op);
      assert t'.rows[x].engineId == t'.rows[op.id].engineId;
    } else {
      assert !IdFits(Step(t, op).rows[op.id]);
    }
  }

  ghost predicate SafeRun(t: Table, ops: seq<Op>) {
    ops != [] ==> SafeRun(t, ops[..|ops| - 1]) && SafeForIds(Run(t, ops[..|ops| - 1]), ops[|ops| - 1])
  }

  lemma {:induction false} RunKeepsIds(t: Table, ops: seq<Op>)
    requires IdInv(t) && SafeRun(t, ops)
    ensures IdInv(Run(t, ops))
    decreases |ops|
  {
    if ops != [] {
      RunKeepsIds(t, ops[..|ops| - 1]);
      SafeStepKeepsIds(Run(t, ops[..|ops| - 1]), ops[|ops| - 1]);
    }
  }

  /** In every run of safe operations, late accepts after a restart included, a row has an
      engine id exactly while it is open or partially filled, and no two rows share one. */
  lemma {:induction false} EngineIdMeansLive(ops: seq<Op>, id: nat)
    requires SafeRun(EMPTY, ops) && id in Run(EMPTY, ops).rows
    ensures var t := Run(EMPTY, ops);
      && (t.rows[id].engineId.Some? <==> Live(t.rows[id].status))
      && (forall x :: x in t.rows && SameEngineId(t.rows[x], t.rows[id]) ==> x == id)
  {
    RunKeepsIds(EMPTY, ops);
  }

  // ---------------------------------------------------------------- is canceled final?

  /** The engine's answer to the order's own request; both answers overwrite the status. */
  predicate Answers(op: Op, id: nat) { (op.Accept? || op.Reject?) && op.id == id }

  lemma CanceledStep(t: Table, op: Op, id: nat)
    requires IdInv(t) && id in t.rows && t.rows[id].status.Canceled?
    ensures id in Step(t, op).rows
    ensures Step(t, op).rows[id].status.Canceled? <==> !Answers(op, id)
  {
  }

  /** The row is canceled at every point of the run. */
  ghost predicate StaysCanceled(t: Table, ops: seq<Op>, id: nat) {
    && id in Run(t, ops).rows && Run(t, ops).rows[id].status.Canceled?
    && (ops != [] ==> StaysCanceled(t, ops[..|ops| - 1], id))
  }

  /** Through any run, whatever happens to other rows, a canceled order stays canceled if and
      only if no late answer to its own request is in it. */
  lemma {:induction false} CanceledForGoodIff(t: Table, ops: seq<Op>, id: nat)
    requires IdInv(t) && SafeRun(t, ops) && id in t.rows && t.rows[id].status.Canceled?
    ensures StaysCanceled(t, ops, id) <==> forall i :: 0 <= i < |ops| ==> !Answers(ops[i], id)
    decreases |ops|
  {
    if ops != [] {
      var pre, op := ops[..|ops| - 1], ops[|ops| - 1];
      CanceledForGoodIff(t, pre, id);
      RunKeepsIds(t, pre);
      assert forall i :: 0 <= i < |pre| ==> pre[i] == ops[i];
      if StaysCanceled(t, pre, id) { CanceledStep(Run(t, pre), op, id); }
    }
  }

  /** An order request is in flight while an engine restart cancels the pending row. */
  function LateAccept(size: int, engineId: nat): seq<Op> {
    [Create(size)] + [Restart] + [Accept(0, engineId, size)]
  }

  lemma RunSnoc(t: Table, ops: seq<Op>, op: Op)
    ensures Run(t, ops + [op]) == Step(Run(t, ops), op)
  {
    assert (ops + [op])[..|ops + [op]| - 1] == ops;
  }

  /** The late accept reopens the canceled order under an id of the engine that is gone, and
      the first fill the new engine reports under that id is booked on it. */
  lemma LateAcceptReopens(size: int, engineId: nat, price: int, fillSize: int)
    requires 0 < fillSize < size
    ensures var t := Run(EMPTY, LateAccept(size, engineId));
      && 0 in Run(EMPTY, [Create(size)] + [Restart]).rows
      && Run(EMPTY, [Create(size)] + [Restart]).rows[0].status.Canceled?
      && 0 in t.rows && t.rows[0].status.Open? && t.rows[0].engineId == Some(engineId)
      && Recorded(t, engineId, price, fillSize).fills == [FillRecord(0, price, fillSize)]
  {
    RunSnoc(EMPTY, [], Create(size));
    assert [] + [Create(size)] == [Create(size)];
    RunSnoc(EMPTY, [Create(size)], Restart);
    RunSnoc(EMPTY, [Create(size)] + [Restart], Accept(0, engineId, size));
    var t := Run(EMPTY, LateAccept(size, engineId));
    assert t.rows == map[0 := Row(Some(engineId), size, size, Open)] && t.nextId == 1;
    assert Lookup(t.rows, engineId, 0) == None;
    assert Lookup(t.rows, engineId, 1) == Some(0);
  }

  // ---------------------------------------------------------------- statuses and fills

  lemma {:induction false} NoFillsYet(fills: seq<FillRecord>, id: nat)
    requires forall i :: 0 <= i < |fills| ==> fills[i].orderId != id
    ensures TotalFor(fills, id) == 0
    decreases |fills|
  {
    if fills != [] { NoFillsYet(fills[..|fills| - 1], id); }
  }

  lemma TotalSnoc(fills: seq<FillRecord>, f: FillRecord, id: nat)
    ensures TotalFor(fills + [f], id) == TotalFor(fills, id) + if f.orderId == id then f.size else 0
  {
    assert (fills + [f])[..|fills + [f]| - 1] == fills;
  }

  lemma CreateKeepsStatus(t: Table, size: int)
    requires Inv(t)
    ensures StatusInv(CreatePending(t, size))
  {
    NoFillsYet(t.fills, t.nextId);
  }

  lemma FillKeepsStatus(t: Table, engineId: nat, price: int, size: int)
    requires Inv(t) && size > 0
    ensures StatusInv(Recorded(t, engineId, price, size))
  {
    var found := Lookup(t.rows, engineId, t.nextId);
    if found.Some? {
      var id := found.value;
      var t' := Recorded(t, engineId, price, size);
      forall x | x in t'.rows
        ensures StatusFits(t'.rows[x], TotalFor(t'.fills, x))
      {
        TotalSnoc(t.fills, FillRecord(id, price, size), x);
      }
    }
  }

  lemma StepKeepsInv(t: Table, op: Op)
    requires Inv(t) && Allowed(t, op)
    ensures Inv(Step(t, op))
  {
    SafeStepKeepsIds(t, op);
    match op
    case Create(size) => CreateKeepsStatus(t, size);
    case Accept(id, engineId, expected) =>
    case Reject(id) =>
    case Cancel(id) =>
    case RecordFill(engineId, price, size) => FillKeepsStatus(t, engineId, price, size);
    case Restart =>
  }

  lemma {:induction false} RunKeepsInv(t: Table, ops: seq<Op>)
    requires Inv(t) && AllowedRun(t, ops)
    ensures Inv(Run(t, ops))
    decreases |ops|
  {
    if ops != [] {
      RunKeepsInv(t, ops[..|ops| - 1]);
      StepKeepsInv(Run(t, ops[..|ops| - 1]), ops[|ops| - 1]);
    }
  }

  /** While answers reach pending rows only, the status fits the sum of the recorded fills. */
  lemma StatusFitsFills(ops: seq<Op>, id: nat)
    requires AllowedRun(EMPTY, ops) && id in Run(EMPTY, ops).rows
    ensures var t := Run(EMPTY, ops); StatusFits(t.rows[id], TotalFor(t.fills, id))
  {
    RunKeepsInv(EMPTY, ops);
  }

  // ---------------------------------------------------------------- filled on the last fill

  /** Sizes of the fills a run records for an engine id. */
  function FillsFor(ops: seq<Op>, engineId: nat): int {
    if ops == [] then 0
    else
      var op := ops[|ops| - 1];
      FillsFor(ops[..|ops| - 1], engineId)
      + (if op.RecordFill? && op.engineId == engineId then op.fillSize else 0)
  }

  /** The run neither cancels the order, nor restarts, nor touches it or its engine id. */
  ghost predicate LeavesAlone(ops: seq<Op>, id: nat, engineId: nat) {
    forall i :: 0 <= i < |ops| ==>
      && !ops[i].Restart? && ops[i] != Cancel(id) && ops[i] != Reject(id)
      && !(ops[i].Accept? && (ops[i].id == id || ops[i].engineId == engineId))
  }

  /** The row of an order of which `got` out of `expected` has been recorded. */
  predicate Progress(row: Row, engineId: nat, expected: int, got: int) {
    && row.expected == expected
    && row.status == (if got >= expected then FilledUp else if got == 0 then Open else PartiallyFilled)
    && row.engineId == (if got >= expected then None else Some(engineId))
  }

  ghost predicate Tracking(t: Table, id: nat, engineId: nat, expected: int, got: int) {
    && id in t.rows && Progress(t.rows[id], engineId, expected, got)
    && TotalFor(t.fills, id) == got
    && (got >= expected ==> EngineIdFree(t, engineId))
  }

  lemma LookupFinds(t: Table, id: nat, engineId: nat)
    requires IdInv(t) && id in t.rows && t.rows[id].engineId == Some(engineId)
    ensures Lookup(t.rows, engineId, t.nextId) == Some(id)
  {
  }

  lemma OwnFillAdvances(t: Table, id: nat, engineId: nat, expected: int, got: int, price: int, size: int)
    requires IdInv(t) && Tracking(t, id, engineId, expected, got) && 0 <= got < expected && size > 0
    ensures Tracking(Recorded(t, engineId, price, size), id, engineId, expected, got + size)
  {
    LookupFinds(t, id, engineId);
    TotalSnoc(t.fills, FillRecord(id, price, size), id);
  }

  lemma OtherOpKeepsTracking(t: Table, op: Op, id: nat, engineId: nat, expected: int, got: int)
    requires IdInv(t) && Tracking(t, id, engineId, expected, got)
    requires !op.Restart? && op != Cancel(id) && op != Reject(id)
    requires !(op.Accept? && (op.id == id || op.engineId == engineId))
    requires !(op.RecordFill? && op.engineId == engineId)
    ensures Tracking(Step(t, op), id, engineId, expected, got)
  {
    match op
    case Create(size) =>
    case Accept(_, _, _) =>
    case Reject(_) =>
    case Cancel(_) =>
    case RecordFill(_, _, _) => OtherFillKeepsTracking(t, op, id, engineId, expected, got);
    case Restart =>
  }

  lemma OtherFillKeepsTracking(t: Table, op: Op, id: nat, engineId: nat, expected: int, got: int)
    requires IdInv(t) && Tracking(t, id, engineId, expected, got)
    requires op.RecordFill? && op.engineId != engineId
    ensures Tracking(Step(t, op), id, engineId, expected, got)
  {
    var found := Lookup(t.rows, op.engineId, t.nextId);
    if found.Some? {
      assert found.value != id;
      TotalSnoc(t.fills, FillRecord(found.value, op.price, op.fillSize), id);
    }
  }

  /** Fills of the order have positive sizes. */
  ghost predicate PositiveFills(ops: seq<Op>, engineId: nat) {
    forall i :: 0 <= i < |ops| && ops[i].RecordFill? && ops[i].engineId == engineId ==> ops[i].fillSize > 0
  }

  lemma {:induction false} FillsForNonNegative(ops: seq<Op>, engineId: nat)
    requires PositiveFills(ops, engineId)
    ensures FillsFor(ops, engineId) >= 0
    decreases |ops|
  {
    if ops != [] { FillsForNonNegative(ops[..|ops| - 1], engineId); }
  }

  /** As long as the recorded fills do not exceed what is expected, every one of them finds
      its row, and the order is filled exactly when the last of them is recorded, whatever
      happens to other rows. */
  lemma {:induction false} FilledOnLastFill(t: Table, ops: seq<Op>, id: nat, engineId: nat)
    requires IdInv(t) && SafeRun(t, ops) && PositiveFills(ops, engineId) && LeavesAlone(ops, id, engineId)
    requires id in t.rows && t.rows[id].status.Open? && t.rows[id].engineId == Some(engineId)
    requires TotalFor(t.fills, id) == 0 && 0 < t.rows[id].expected && FillsFor(ops, engineId) <= t.rows[id].expected
    ensures Tracking(Run(t, ops), id, engineId, t.rows[id].expected, FillsFor(ops, engineId))
    decreases |ops|
  {
    if ops != [] {
      var pre, op := ops[..|ops| - 1], ops[|ops| - 1];
      FillsForNonNegative(pre, engineId);
      FilledOnLastFill(t, pre, id, engineId);
      RunKeepsIds(t, pre);
      var mid, got := Run(t, pre), FillsFor(pre, engineId);
      if op.RecordFill? && op.engineId == engineId {
        OwnFillAdvances(mid, id, engineId, t.rows[id].expected, got, op.price, op.fillSize);
      } else {
        OtherOpKeepsTracking(mid, op, id, engineId, t.rows[id].expected, got);
      }
    }
  }

  // ---------------------------------------------------------------- what each operation leaves

  /** Only this row differs, and it is now `row`; fills and numbering are as they were. */
  ghost predicate OnlyRow(t: Table, t': Table, id: nat, row: Row) {
    t'.rows == t.rows[id := row] && t'.fills == t.fills && t'.nextId == t.nextId
  }

  /** A fill under an id that no row carries changes nothing; otherwise it is booked on a row
      that carries it, which is then filled if its fills reach what is expected of it. */
  ghost predicate FillLeaves(t: Table, t': Table, engineId: nat, price: int, size: int) {
    if forall id :: id in t.rows && id < t.nextId ==> t.rows[id].engineId != Some(engineId) then t' == t
    else
      exists id ::
        && id in t.rows && t.rows[id].engineId == Some(engineId)
        && t'.fills == t.fills + [FillRecord(id, price, size)] && t'.nextId == t.nextId
        && t'.rows == t.rows[id := if TotalFor(t.fills, id) + size >= t.rows[id].expected
                                   then t.rows[id].(status := FilledUp, engineId := None)
                                   else t.rows[id].(status := PartiallyFilled)]
  }

  /** A restart ends every order that is pending, open or partly filled, and no other. */
  ghost predicate RestartLeaves(t: Table, t': Table) {
    && t'.rows.Keys == t.rows.Keys && t'.fills == t.fills && t'.nextId == t.nextId
    && forall id :: id in t.rows ==>
         match t.rows[id].status
         case Pending => t'.rows[id] == t.rows[id].(status := Canceled, engineId := None)
         case Open => t'.rows[id] == t.rows[id].(status := Canceled, engineId := None)
         case PartiallyFilled => t'.rows[id] == t.rows[id].(status := Canceled, engineId := None)
         case _ => t'.rows[id] == t.rows[id]
  }

  /** What an operation leaves, from rows of any status. */
  ghost predicate Leaves(t: Table, t': Table, op: Op) {
    match op
    case Create(size) =>
      t'.rows == t.rows[t.nextId := Row(None, size, 0, Pending)] && t'.fills == t.fills && t'.nextId == t.nextId + 1
    case Accept(id, engineId, expected) =>
      if id !in t.rows then t' == t
      else
        OnlyRow(t, t', id, if expected > 0 then Row(Some(engineId), t.rows[id].size, expected, Open)
                           else Row(None, t.rows[id].size, expected, Unfilled))
    case Reject(id) =>
      if id !in t.rows then t' == t else OnlyRow(t, t', id, t.rows[id].(status := Status.Rejected))
    case Cancel(id) =>
      if id !in t.rows then t' == t else OnlyRow(t, t', id, t.rows[id].(status := Canceled, engineId := None))
    case RecordFill(engineId, price, size) => FillLeaves(t, t', engineId, price, size)
    case Restart => RestartLeaves(t, t')
  }

  lemma StepLeaves(t: Table, op: Op)
    ensures Leaves(t, Step(t, op), op)
  {
    if op.RecordFill? {
      var found := Lookup(t.rows, op.engineId, t.nextId);
      if found.Some? {
        var f := FillRecord(found.value, op.price, op.fillSize);
        TotalSnoc(t.fills, f, found.value);
        assert found.value in t.rows && found.value < t.nextId;
      }
    }
  }

  // ---------------------------------------------------------------- the class

  class Repository {
    var rows: map<nat, Row>
    var fills: seq<FillRecord>
    var nextId: nat

    ghost function State(): Table reads this { Table(rows, fills, nextId) }

    constructor ()
      ensures State() == EMPTY
    {
      rows, fills, nextId := map[], [], 0;
    }

    method CreatePendingOrder(size: int) returns (id: nat)
      modifies this
      ensures State() == Step(old(State()), Create(size)) && id == old(nextId)
      ensures Leaves(old(State()), State(), Create(size))
    {
      StepLeaves(State(), Create(size));
      id := nextId;
      rows := rows[id := Row(None, size, 0, Pending)];
      nextId := nextId + 1;
    }

    method MarkOrderAccepted(id: nat, engineId: nat, expected: int)
      modifies this
      ensures State() == Step(old(State()), Accept(id, engineId, expected))
      ensures Leaves(old(State()), State(), Accept(id, engineId, expected))
    {
      StepLeaves(State(), Accept(id, engineId, expected));
      var status, stored := Open, Some(engineId);
      if expected <= 0 {
        status, stored := Unfilled, None;
      }
      if id in rows {
        rows := rows[id := rows[id].(status := status, engineId := stored, expected := expected)];
      }
    }

    method MarkOrderRejected(id: nat)
      modifies this
      ensures State() == Step(old(State()), Reject(id))
      ensures Leaves(old(State()), State(), Reject(id))
    {
      StepLeaves(State(), Reject(id));
      if id in rows {
        rows := rows[id := rows[id].(status := Rejected)];
      }
    }

    method MarkOrderCanceled(id: nat)
      modifies this
      ensures State() == Step(old(State()), Cancel(id))
      ensures Leaves(old(State()), State(), Cancel(id))
    {
      StepLeaves(State(), Cancel(id));
      if id in rows {
        rows := rows[id := rows[id].(status := Canceled, engineId := None)];
      }
    }

    method CancelOpenOrdersForEngineRestart()
      modifies this
      ensures State() == Step(old(State()), Restart)
      ensures Leaves(old(State()), State(), Restart)
    {
      StepLeaves(State(), Restart);
      rows := map id | id in rows ::
        if rows[id].status.Pending? || rows[id].status.Open? || rows[id].status.PartiallyFilled?
        then rows[id].(status := Canceled, engineId := None) else rows[id];
    }

    /** The lookup: scan the rows for the engine id. */
    method FindByEngineId(engineId: nat) returns (found: Option<nat>)
      ensures found == Lookup(rows, engineId, nextId)
    {
      var i := 0;
      while i < nextId
        invariant 0 <= i <= nextId
        invariant Lookup(rows, engineId, i) == None
      {
        if i in rows && rows[i].engineId == Some(engineId) {
          LookupKeeps(rows, engineId, i + 1, nextId);
          return Some(i);
        }
        i := i + 1;
      }
      return None;
    }

    /** The sum over the fills table. */
    method SumFills(id: nat) returns (total: int)
      ensures total == TotalFor(fills, id)
    {
      total := 0;
      for i := 0 to |fills|
        invariant total == TotalFor(fills[..i], id)
      {
        assert fills[..i + 1][..i] == fills[..i];
        if fills[i].orderId == id {
          total := total + fills[i].size;
        }
      }
      assert fills[..|fills|] == fills;
    }

    method RecordFill(engineId: nat, price: int, size: int) returns (orderId: Option<nat>)
      modifies this
      ensures State() == Step(old(State()), Op.RecordFill(engineId, price, size))
      ensures orderId == Lookup(old(rows), engineId, old(nextId))
      ensures Leaves(old(State()), State(), Op.RecordFill(engineId, price, size))
    {
      StepLeaves(State(), Op.RecordFill(engineId, price, size));
      orderId := FindByEngineId(engineId);
      if orderId.None? {
        return;
      }
      var id := orderId.value;
      fills := fills + [FillRecord(id, price, size)];
      var total := SumFills(id);
      if total >= rows[id].expected {
        rows := rows[id := rows[id].(status := FilledUp, engineId := None)];
      } else {
        rows := rows[id := rows[id].(status := PartiallyFilled, engineId := Some(engineId))];
      }
    }
  }

  lemma {:induction false} LookupKeeps(rows: map<nat, Row>, engineId: nat, i: nat, n: nat)
    requires i <= n && Lookup(rows, engineId, i).Some?
    ensures Lookup(rows, engineId, n) == Lookup(rows, engineId, i)
    decreases n
  {
    if i < n { LookupKeeps(rows, engineId, i, n - 1); }
  }
}
