/** The audit pipeline: requests offer rows to a bounded queue, one writer collects
    them into batches and inserts each batch in one statement. */
module AuditPipeline {
  import opened Wrappers
  import opened MachineInts
  import opened Schema
  import opened Statements

  const CHANNEL_CAPACITY: nat := 8192
  const BATCH_SIZE: nat := 256

  type Row = (u128, AuditRow)

  /** A flushed batch is stored or lost as a whole. */
  datatype Batch = Batch(rows: seq<Row>, stored: bool)

  datatype Phase = Waiting | Collecting | Flushing | Stopped

  datatype State = State(
    queue: seq<Row>, closed: bool, phase: Phase, batch: seq<Row>, flushed: seq<Batch>,
    accepted: seq<Row>, attempted: nat, dropped: nat, db: Store)

  datatype Event =
    | Offer(row: Row)      // try_send
    | Close                // the last sender is dropped
    | Receive              // recv returns a row, or None once closed and empty
    | Deadline             // the flush interval ends
    | Flush(up: bool)      // the INSERT; `up` is whether the database answers
    | Mutate(next: Store)  // the admin API uses the same database

  function Initial(db: Store): State {
    State([], false, Waiting, [], [], [], 0, 0, db)
  }

  /** The admin API may change anything but the contents of audit rows: see
      `AdminOps.StepKeepsAudit`. */
  ghost predicate Enabled(s: State, e: Event) {
    match e
    case Offer(_) => !s.closed
    case Close => !s.closed
    case Receive => (s.phase.Waiting? || s.phase.Collecting?) && (s.queue != [] || s.closed)
    case Deadline => s.phase.Collecting?
    case Flush(_) => s.phase.Flushing?
    case Mutate(next) => SameAuditRows(s.db, next)
  }

  function AfterReceive(s: State): State
    requires Enabled(s, Receive)
  {
    if s.queue == [] then
      s.(phase := if s.phase.Waiting? then Stopped else Flushing)
    else
      var batch := s.batch + [s.queue[0]];
      s.(queue := s.queue[1..], batch := batch, phase := if |batch| < BATCH_SIZE then Collecting else Flushing)
  }

  function Next(s: State, e: Event): State
    requires Enabled(s, e)
  {
    match e
    case Offer(row) =>
      if |s.queue| < CHANNEL_CAPACITY
      then s.(queue := s.queue + [row], accepted := s.accepted + [row], attempted := s.attempted + 1)
      else s.(dropped := s.dropped + 1, attempted := s.attempted + 1)
    case Close => s.(closed := true)
    case Receive => AfterReceive(s)
    case Deadline => s.(phase := Flushing)
    case Flush(up) =>
      var done := InsertAudit(s.db, s.batch);
      s.(phase := Waiting, batch := [], flushed := s.flushed + [Batch(s.batch, up && done.Ok?)],
         db := if up && done.Ok? then done.value else s.db)
    case Mutate(next) => s.(db := next)
  }

  ghost predicate CanRun(s: State, es: seq<Event>)
    decreases |es|
  {
    es == [] || (Enabled(s, es[0]) && CanRun(Next(s, es[0]), es[1..]))
  }

  function Exec(s: State, es: seq<Event>): State
    requires CanRun(s, es)
    decreases |es|
  {
    if es == [] then s else Exec(Next(s, es[0]), es[1..])
  }

  // ---- Conservation ----

  /** The rows of all flushed batches, in order. */
  function FlushedRows(flushed: seq<Batch>): seq<Row> {
    if flushed == [] then []
    else FlushedRows(flushed[..|flushed| - 1]) + flushed[|flushed| - 1].rows
  }

  predicate BatchOk(b: Batch) {
    1 <= |b.rows| <= BATCH_SIZE
  }

  ghost predicate Conserved(s: State) {
    && s.accepted == FlushedRows(s.flushed) + s.batch + s.queue
    && s.attempted == |s.accepted| + s.dropped
    && |s.queue| <= CHANNEL_CAPACITY
    && (forall b :: b in s.flushed ==> BatchOk(b))
    && match s.phase
       case Waiting => s.batch == []
       case Collecting => 1 <= |s.batch| < BATCH_SIZE
       case Flushing => 1 <= |s.batch| <= BATCH_SIZE
       case Stopped => s.closed && s.batch == [] && s.queue == []
  }

  lemma FlushConserves(s: State, up: bool)
    requires Conserved(s) && Enabled(s, Flush(up))
    ensures Conserved(Next(s, Flush(up)))
  {
    var last := Next(s, Flush(up)).flushed[|s.flushed|];
    assert last.rows == s.batch && BatchOk(last);
    FlushedSnoc(s.flushed, last);
    assert s.batch + s.queue == s.batch + ([] + s.queue);
  }

  lemma FlushedSnoc(flushed: seq<Batch>, last: Batch)
    ensures FlushedRows(flushed + [last]) == FlushedRows(flushed) + last.rows
    ensures forall b :: b in flushed + [last] ==> b in flushed || b == last
  {
    assert (flushed + [last])[..|flushed|] == flushed;
  }

  lemma ReceiveConserves(s: State)
    requires Conserved(s) && Enabled(s, Receive)
    ensures Conserved(Next(s, Receive))
  {
    if s.queue != [] {
      assert s.batch + s.queue == (s.batch + [s.queue[0]]) + s.queue[1..];
    }
  }

  lemma StepConserves(s: State, e: Event)
    requires Conserved(s) && Enabled(s, e)
    ensures Conserved(Next(s, e))
  {
    match e {
      case Flush(up) => FlushConserves(s, up);
      case Receive => ReceiveConserves(s);
      case _ =>
    }
  }

  /** At every moment of every run: the accepted rows, in order, are the rows of the
      flushed batches, then the current batch, then the queue; every attempt was
      accepted or dropped; the queue keeps its bound; every flushed batch has 1 to 256
      rows; and a stopped writer has left nothing behind. */
  lemma {:induction false} RowsAreConserved(s: State, es: seq<Event>)
    requires Conserved(s) && CanRun(s, es)
    ensures Conserved(Exec(s, es))
    decreases |es|
  {
    if es != [] {
      StepConserves(s, es[0]);
      RowsAreConserved(Next(s, es[0]), es[1..]);
    }
  }

  // ---- The writer ends ----

  predicate IsWriterStep(e: Event) {
    e.Receive? || e.Deadline? || e.Flush?
  }

  /** How many writer steps are left at most, once no sender remains. */
  function Remaining(s: State): nat {
    3 * |s.queue| + match s.phase
                    case Stopped => 0
                    case Waiting => 1
                    case Flushing => 2
                    case Collecting => 3
  }

  function WriterSteps(es: seq<Event>): nat {
    if es == [] then 0 else (if IsWriterStep(es[0]) then 1 else 0) + WriterSteps(es[1..])
  }

  lemma WriterStepShrinks(s: State, e: Event)
    requires s.closed && Enabled(s, e)
    ensures Next(s, e).closed
    ensures Remaining(Next(s, e)) <= Remaining(s) - (if IsWriterStep(e) then 1 else 0)
  {
  }

  lemma {:induction false} WriterStepsBounded(s: State, es: seq<Event>)
    requires s.closed && CanRun(s, es)
    ensures Exec(s, es).closed
    ensures WriterSteps(es) + Remaining(Exec(s, es)) <= Remaining(s)
    decreases |es|
  {
    if es != [] {
      WriterStepShrinks(s, es[0]);
      WriterStepsBounded(Next(s, es[0]), es[1..]);
    }
  }

  /** Once all senders are gone the writer takes a bounded number of further steps,
      whatever the database and the admin API do; it can always take another one
      until it has stopped; and then every accepted row has been flushed. */
  lemma WriterDrainsAndStops(s: State, es: seq<Event>)
    requires Conserved(s) && s.closed && CanRun(s, es)
    ensures WriterSteps(es) <= Remaining(s)
    ensures var s' := Exec(s, es);
            && ((forall e :: Enabled(s', e) ==> !IsWriterStep(e)) <==> s'.phase.Stopped?)
            && (s'.phase.Stopped? ==> s'.batch == [] && s'.queue == [] && s'.accepted == FlushedRows(s'.flushed))
  {
    WriterStepsBounded(s, es);
    RowsAreConserved(s, es);
    var s' := Exec(s, es);
    assert s'.closed;
    if !s'.phase.Stopped? {
      var e := if s'.phase.Flushing? then Flush(true) else Receive;
      assert Enabled(s', e) && IsWriterStep(e);
    }
  }

  // ---- What the table holds ----

  function StoredRows(flushed: seq<Batch>): seq<Row> {
    if flushed == [] then []
    else StoredRows(flushed[..|flushed| - 1])
         + (if flushed[|flushed| - 1].stored then flushed[|flushed| - 1].rows else [])
  }

  /** The first row with the id. */
  function FirstRow(rows: seq<Row>, id: u128): Option<AuditRow> {
    if rows == [] then None
    else if rows[0].0 == id then Some(rows[0].1)
    else FirstRow(rows[1..], id)
  }

  /** It is there exactly if some row has the id, and no earlier row has it. */
  lemma {:induction false} FirstRowIsFirst(rows: seq<Row>, id: u128)
    ensures FirstRow(rows, id).None? <==> forall r :: r in rows ==> r.0 != id
    ensures forall i :: 0 <= i < |rows| && rows[i].0 == id && (forall j :: 0 <= j < i ==> rows[j].0 != id) ==>
              FirstRow(rows, id) == Some(rows[i].1)
  {
    if rows != [] {
      FirstRowIsFirst(rows[1..], id);
      assert forall r :: r in rows <==> r == rows[0] || r in rows[1..];
      forall i | 0 <= i < |rows| && rows[i].0 == id && (forall j :: 0 <= j < i ==> rows[j].0 != id)
        ensures FirstRow(rows, id) == Some(rows[i].1)
      {
        if i > 0 {
          assert rows[1..][i - 1] == rows[i];
        }
      }
    }
  }

  lemma {:induction false} FirstRowOfJoin(xs: seq<Row>, ys: seq<Row>, id: u128)
    ensures FirstRow(xs + ys, id) == if FirstRow(xs, id).Some? then FirstRow(xs, id) else FirstRow(ys, id)
  {
    if xs == [] {
      assert xs + ys == ys;
    } else {
      assert (xs + ys)[1..] == xs[1..] + ys;
      FirstRowOfJoin(xs[1..], ys, id);
    }
  }

  lemma {:induction false} InsertIgnoreTakesFirst(audit: map<u128, AuditRow>, rows: seq<Row>, id: u128)
    ensures var after := InsertIgnore(audit, rows);
            && (id in after <==> id in audit || FirstRow(rows, id).Some?)
            && (id in audit ==> after[id] == audit[id])
            && (id !in audit && id in after ==> after[id] == FirstRow(rows, id).value)
  {
    if rows != [] {
      var m := |rows| - 1;
      InsertIgnoreTakesFirst(audit, rows[..m], id);
      FirstRowOfJoin(rows[..m], [rows[m]], id);
      assert rows == rows[..m] + [rows[m]];
    }
  }

  /** The table holds the rows it started with and the stored rows; the first stored
      row with an id wins, and rows already there always win. */
  ghost predicate HoldsId(before: Store, db: Store, stored: seq<Row>, id: u128) {
    && (id in db.audit <==> id in before.audit || FirstRow(stored, id).Some?)
    && (id in before.audit ==> SameAuditRow(before.audit[id], db.audit[id]))
    && (id !in before.audit && id in db.audit ==> SameAuditRow(FirstRow(stored, id).value, db.audit[id]))
  }

  ghost predicate HoldsStored(before: Store, db: Store, stored: seq<Row>) {
    forall id :: HoldsId(before, db, stored, id)
  }

  lemma FlushHolds(before: Store, s: State, up: bool)
    requires Enabled(s, Flush(up)) && HoldsStored(before, s.db, StoredRows(s.flushed))
    ensures HoldsStored(before, Next(s, Flush(up)).db, StoredRows(Next(s, Flush(up)).flushed))
  {
    var s' := Next(s, Flush(up));
    var m := |s.flushed|;
    assert s'.flushed[..m] == s.flushed;
    var more := if s'.flushed[m].stored then s.batch else [];
    assert StoredRows(s'.flushed) == StoredRows(s.flushed) + more;
    forall id ensures HoldsId(before, s'.db, StoredRows(s.flushed) + more, id) {
      assert HoldsId(before, s.db, StoredRows(s.flushed), id);
      FirstRowOfJoin(StoredRows(s.flushed), more, id);
      InsertIgnoreTakesFirst(s.db.audit, s.batch, id);
    }
  }

  lemma MutateHolds(before: Store, db: Store, stored: seq<Row>, next: Store)
    requires SameAuditRows(db, next) && HoldsStored(before, db, stored)
    ensures HoldsStored(before, next, stored)
  {
    forall id ensures HoldsId(before, next, stored, id) {
      assert HoldsId(before, db, stored, id);
    }
  }

  /** In every run the table holds exactly what it held before plus the rows of the
      stored batches, whatever admin operations run in between. */
  lemma {:induction false} TableHoldsStoredRows(before: Store, s: State, es: seq<Event>)
    requires HoldsStored(before, s.db, StoredRows(s.flushed)) && CanRun(s, es)
    ensures HoldsStored(before, Exec(s, es).db, StoredRows(Exec(s, es).flushed))
    decreases |es|
  {
    if es != [] {
      match es[0] {
        case Flush(up) => FlushHolds(before, s, up);
        case Mutate(next) => MutateHolds(before, s.db, StoredRows(s.flushed), next);
        case _ =>
      }
      TableHoldsStoredRows(before, Next(s, es[0]), es[1..]);
    }
  }

  /** No text of the batch has a NUL character. */
  ghost predicate AllText(rows: seq<Row>) {
    forall r :: r in rows ==> (r.1.model.Some? ==> '\0' !in r.1.model.value) && '\0' !in r.1.detail
  }

  /** Whatever the row refers to is in its table. */
  predicate RefersToRows(row: AuditRow, db: Store) {
    && (row.keyId.Some? ==> row.keyId.value in db.keys)
    && (row.modelId.Some? ==> row.modelId.value in db.models)
    && (row.providerId.Some? ==> row.providerId.value in db.providers)
    && (row.providerModelId.Some? ==> row.providerModelId.value in db.providerModels)
  }

  /** No row the batch would newly insert refers to a deleted key or provider. */
  ghost predicate AllLinked(db: Store, rows: seq<Row>) {
    forall id :: id !in db.audit && FirstRow(rows, id).Some? ==> RefersToRows(FirstRow(rows, id).value, db)
  }

  /** A flush stores its batch exactly when the database answers, no row it would newly
      insert refers to a deleted key or provider, and no row of it, new or not, holds a
      NUL character: one such row loses them all. */
  lemma FlushStoresIff(s: State, up: bool)
    requires Enabled(s, Flush(up))
    ensures Next(s, Flush(up)).flushed == s.flushed + [Batch(s.batch, Next(s, Flush(up)).flushed[|s.flushed|].stored)]
    ensures Next(s, Flush(up)).flushed[|s.flushed|].stored <==> up && AllText(s.batch) && AllLinked(s.db, s.batch)
  {
    forall id {
      InsertIgnoreTakesFirst(s.db.audit, s.batch, id);
    }
    if up && Next(s, Flush(up)).flushed[|s.flushed|].stored {
      forall id | id !in s.db.audit && FirstRow(s.batch, id).Some?
        ensures RefersToRows(FirstRow(s.batch, id).value, s.db)
      {
        assert id in InsertIgnore(s.db.audit, s.batch);
      }
    }
  }

  lemma {:induction false} FirstRowIsThere(rows: seq<Row>, id: u128)
    ensures FirstRow(rows, id).Some? ==> (id, FirstRow(rows, id).value) in rows
  {
    if rows != [] && rows[0].0 != id {
      FirstRowIsThere(rows[1..], id);
    }
  }

  /** A row without references. */
  function Bare(id: u128, model: string): Row {
    (id, AuditRow(None, None, None, None, Some(model), ""))
  }

  lemma BareRowsAreLinked(db: Store, rows: seq<Row>)
    requires forall r: Row :: r in rows ==> exists model :: r == Bare(r.0, model)
    ensures AllLinked(db, rows)
  {
    forall id {
      FirstRowIsThere(rows, id);
    }
  }

  /** Two unrelated rows, the second asking for a model of one NUL character. The database
      answers and every reference holds, and yet both are lost; the first alone would have
      been stored. */
  lemma OneNulLosesTheBatch(s: State)
    requires s.phase.Flushing? && s.batch == [Bare(1, "m"), Bare(2, "\0")]
    ensures AllLinked(s.db, s.batch)
    ensures Next(s, Flush(true)).flushed == s.flushed + [Batch(s.batch, false)] && Next(s, Flush(true)).db == s.db
    ensures Next(s.(batch := [Bare(1, "m")]), Flush(true)).flushed == s.flushed + [Batch([Bare(1, "m")], true)]
  {
    var first := s.(batch := [Bare(1, "m")]);
    BareRowsAreLinked(s.db, s.batch);
    BareRowsAreLinked(s.db, first.batch);
    NulOrNot();
    assert Bare(2, "\0") in s.batch;
    FlushStoresIff(s, true);
    FlushStoresIff(first, true);
  }

  lemma NulOrNot()
    ensures Bare(1, "m").1.IsText() && !Bare(2, "\0").1.IsText()
  {
    assert "\0"[0] == '\0';
  }

  // ---- The writer's loop ----

  class AuditWriter {
    var queue: seq<Row>
    var batch: seq<Row>
    var db: Store
    /** Every batch handed to the database so far. */
    var flushed: seq<Batch>

    constructor (initial: Store)
      ensures queue == [] && batch == [] && flushed == [] && db == initial
    {
      queue, batch, db, flushed := [], [], initial, [];
    }

    /** Never waits: a full queue drops the row. */
    method TrySend(row: Row) returns (accepted: bool)
      modifies this`queue
      ensures accepted <==> old(|queue|) < CHANNEL_CAPACITY
      ensures queue == if accepted then old(queue) + [row] else old(queue)
    {
      accepted := |queue| < CHANNEL_CAPACITY;
      if accepted {
        queue := queue + [row];
      }
    }

    /** One INSERT for the whole batch; whether the database answers is its own affair. */
    method InsertBatch(up: bool)
      modifies this`batch, this`db, this`flushed
      ensures batch == []
      ensures var stored := up && InsertAudit(old(db), old(batch)).Ok?;
              && flushed == old(flushed) + [Batch(old(batch), stored)]
              && db == (if stored then InsertAudit(old(db), old(batch)).value else old(db))
    {
      var done := InsertAudit(db, batch);
      var stored := up && done.Ok?;
      if stored {
        db := done.value;
      }
      flushed := flushed + [Batch(batch, stored)];
      batch := [];
    }

    /** The inner receive loop: up to 256 rows, fewer when the deadline fires first. */
    method CollectBatch()
      requires batch == [] && queue != []
      modifies this`batch, this`queue
      ensures 1 <= |batch| <= BATCH_SIZE
      ensures batch + queue == old(queue)
    {
      batch, queue := [queue[0]], queue[1..];
      while |batch| < BATCH_SIZE && queue != []
        invariant 1 <= |batch| <= BATCH_SIZE
        invariant batch + queue == old(queue)
        decreases |queue|
      {
        if * {
          break;
        }
        batch, queue := batch + [queue[0]], queue[1..];
      }
    }

    /** The receive loops after the last sender is gone. When the deadline fires and
        whether the database answers is left open. */
    method RunToEnd()
      requires batch == []
      modifies this
      ensures queue == [] && batch == []
      ensures FlushedRows(flushed) == FlushedRows(old(flushed)) + old(queue)
      ensures old(flushed) <= flushed
      ensures forall i :: |old(flushed)| <= i < |flushed| ==> BatchOk(flushed[i])
    {
      while queue != []
        invariant batch == []
        invariant FlushedRows(flushed) + queue == FlushedRows(old(flushed)) + old(queue)
        invariant old(flushed) <= flushed
        invariant forall i :: |old(flushed)| <= i < |flushed| ==> BatchOk(flushed[i])
        decreases |queue|
      {
        ghost var start, before := queue, flushed;
        CollectBatch();
        assert |start| == |batch| + |queue|;
        var up := false;
        if * {
          up := true;
        }
        InsertBatch(up);
        FlushedSnoc(before, flushed[|before|]);
      }
    }
  }
}
