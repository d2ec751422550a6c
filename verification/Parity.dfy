/** The memory backend and the database backends side by side: the same calls on the same table
    (pool/memory_backend.go, pool/sqlite_backend.go). */
module Parity {
  import opened Tasks
  import opened Heaps
  import opened StoreSpec
  import opened MemoryQueue
  import Rows

  /** The statements that a call runs on a row table. `claimed` is the id that a Dequeue hands out. */
  function OnRows(rows: Rows.Table, op: Op, claimed: Option<TaskId>): Rows.Table {
    match op
    case OpSave(t) => if t.id in rows then rows else rows[t.id := t]
    case OpDelete(id) => rows - {id}
    case OpEnqueue(t) => Rows.Enqueue(rows, t)
    case OpDequeue(now) => if claimed.Some? then Rows.ClaimRow(rows, claimed.value, now) else rows
    case OpRemove(id) => Rows.Remove(rows, id)
    case OpUpdateStatus(id, status, error, now) => Rows.UpdateStatus(rows, id, status, error, now)
    case OpUpdateProgress(id, p) => Rows.UpdateProgress(rows, id, p)
    case OpUpdateResult(id, r) => Rows.UpdateResult(rows, id, r)
    case OpUpdateMetadata(id, d) => Rows.UpdateMetadata(rows, id, d)
    case OpCancelBatch(b) => Rows.CancelBatch(rows, b)
    case OpRecover => Rows.Recover(rows)
    case OpClose => rows
  }

  /** The id that a Dequeue of the memory backend hands out. */
  function Handed(m: MemState, op: Op): Option<TaskId> {
    if !op.OpDequeue? then None
    else
      var k := FirstReady(m, op.now, 0);
      if k < |m.items| then Some(m.items[k].id) else None
  }

  /** The copy has the scheduling columns of the row. */
  predicate SameSchedule(t: Task, row: Task) {
    && t.status == row.status && t.priority == row.priority && t.scheduledAt == row.scheduledAt
    && t.startedAt == row.startedAt && t.doneAt == row.doneAt && t.error == row.error && t.retries == row.retries
  }

  /** The copy has the columns of the row that only a Save writes or that have their own updates. */
  predicate SameContents(t: Task, row: Task) {
    && t.id == row.id && t.kind == row.kind && t.data == row.data && t.batch == row.batch
    && t.maxRetries == row.maxRetries && t.createdAt == row.createdAt && t.result == row.result
    && t.progress == row.progress && t.metadata == row.metadata
  }

  /** When a call stores the same in both. A Save of a stored id is an INSERT that fails in SQL; a queue that refuses
      an Enqueue does not touch the table, a table has no queue to refuse it; SQL claims only Pending rows; SQL clears
      the done time of a status that is not final; and only the memory backend re-opens Retrying tasks. */
  ghost predicate Agrees(m: MemState, op: Op) {
    match op
    case OpSave(t) => t.id in m.tasks ==> m.tasks[t.id] == t
    case OpEnqueue(t) =>
      if t.id !in m.tasks then Accepts(m)
      else if Accepts(m) then SameContents(t, m.tasks[t.id])
      else SameSchedule(t, m.tasks[t.id])
    case OpDequeue(now) =>
      Handed(m, op).Some? && Handed(m, op).value in m.tasks ==> m.tasks[Handed(m, op).value].status == Pending
    case OpUpdateStatus(id, status, _, _) =>
      id in m.tasks && m.tasks[id].doneAt.Some? ==> status in {Completed, Failed, Cancelled}
    case OpRecover => forall id :: id in m.tasks ==> m.tasks[id].status != Retrying
    case _ => true
  }

  lemma SameAtOneId(tasks: map<TaskId, Task>, id: TaskId, a: Task, b: Task)
    ensures tasks[id := a] == tasks[id := b] <==> a == b
  {
    assert tasks[id := a][id] == a && tasks[id := b][id] == b;
  }

  /** An Enqueue agrees exactly when a new task is accepted, when an accepted copy of a stored one has the stored values
      outside the scheduling columns, or when a refused copy has the stored scheduling columns. */
  lemma EnqueueAgreesExactly(m: MemState, t: Task)
    ensures Enqueue(m, t).tasks == Rows.Enqueue(m.tasks, t) <==> Agrees(m, OpEnqueue(t))
  {
    var rows := Rows.Enqueue(m.tasks, t);
    if t.id in m.tasks {
      var row := m.tasks[t.id];
      SameAtOneId(m.tasks, t.id, Rows.Rescheduled(row, t), if Accepts(m) then t else row);
      assert m.tasks[t.id := row] == m.tasks;
    } else {
      assert t.id in rows;
    }
  }

  /** A status write agrees exactly when the status stamps the done time or there was none: SQL clears it, the memory
      backend keeps it. */
  lemma StatusWriteAgreesExactly(m: MemState, id: TaskId, status: TaskStatus, error: Blob, now: Time)
    ensures UpdateStatus(m, id, status, error, now).tasks == Rows.UpdateStatus(m.tasks, id, status, error, now)
       <==> Agrees(m, OpUpdateStatus(id, status, error, now))
  {
    if id in m.tasks {
      var a := UpdateStatus(m, id, status, error, now).tasks;
      var b := Rows.UpdateStatus(m.tasks, id, status, error, now);
      assert a == b <==> a[id] == b[id];
    }
  }

  lemma SaveAgrees(m: MemState, t: Task)
    ensures Save(m, t).tasks == OnRows(m.tasks, OpSave(t), None) <==> Agrees(m, OpSave(t))
  {
    if t.id in m.tasks {
      SameAtOneId(m.tasks, t.id, t, m.tasks[t.id]);
      assert m.tasks[t.id := m.tasks[t.id]] == m.tasks;
    }
  }

  lemma DequeueAgrees(m: MemState, now: Time)
    ensures Dequeue(m, now).tasks == OnRows(m.tasks, OpDequeue(now), Handed(m, OpDequeue(now)))
       <==> Agrees(m, OpDequeue(now))
  {
    var k := FirstReady(m, now, 0);
    if k < |m.items| { assert Dequeue(m, now).tasks[m.items[k].id].status == Running; }
  }

  lemma RecoverAgrees(m: MemState)
    ensures Recover(m).tasks == Rows.Recover(m.tasks) <==> Agrees(m, OpRecover)
  {
    var a, b := Recover(m).tasks, Rows.Recover(m.tasks);
    if a == b {
      forall id | id in m.tasks ensures m.tasks[id].status != Retrying { assert a[id] == b[id]; }
    } else {
      assert exists id :: id in m.tasks && a[id] != b[id];
    }
  }

  /** In any state of queue and table, a call stores the same in the memory backend and in a database if and only if its
      condition holds. */
  lemma StepAgreesExactly(m: MemState, op: Op)
    ensures Apply(m, op).tasks == OnRows(m.tasks, op, Handed(m, op)) <==> Agrees(m, op)
  {
    match op
    case OpSave(t) => SaveAgrees(m, t);
    case OpEnqueue(t) => EnqueueAgreesExactly(m, t);
    case OpDequeue(now) => DequeueAgrees(m, now);
    case OpUpdateStatus(id, status, error, now) => StatusWriteAgreesExactly(m, id, status, error, now);
    case OpRecover => RecoverAgrees(m);
    case _ =>
  }

  /** The same calls on a row table, each Dequeue claiming what the memory backend hands out. */
  function RowsAfter(m: MemState, rows: Rows.Table, ops: seq<Op>): Rows.Table
    decreases |ops|
  {
    if ops == [] then rows else RowsAfter(Apply(m, ops[0]), OnRows(rows, ops[0], Handed(m, ops[0])), ops[1..])
  }

  ghost predicate AgreesThroughout(m: MemState, ops: seq<Op>)
    decreases |ops|
  {
    ops == [] || (Agrees(m, ops[0]) && AgreesThroughout(Apply(m, ops[0]), ops[1..]))
  }

  /** Every run whose calls meet their conditions leaves the same tasks in both kinds of backend. */
  lemma {:induction false} RunsAgree(m: MemState, ops: seq<Op>)
    requires AgreesThroughout(m, ops)
    ensures After(m, ops).tasks == RowsAfter(m, m.tasks, ops)
    decreases |ops|
  {
    if ops != [] {
      StepAgreesExactly(m, ops[0]);
      RunsAgree(Apply(m, ops[0]), ops[1..]);
    }
  }
}
