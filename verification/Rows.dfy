/** The SQL statements of the two database backends as functions on the row table
    (pool/sqlite_backend.go, pool/mysql_backend.go). */
module Rows {
  import opened Tasks
  import opened StoreSpec

  type Table = map<TaskId, Task>

  /** The columns the existing-row branch of Enqueue writes; progress, metadata, result and the
      creation columns stay as stored. */
  function Rescheduled(row: Task, t: Task): Task {
    row.(status := t.status, priority := t.priority, scheduledAt := t.scheduledAt, startedAt := t.startedAt,
         doneAt := t.doneAt, error := t.error, retries := t.retries)
  }

  function Enqueue(rows: Table, t: Task): Table {
    rows[t.id := if t.id in rows then Rescheduled(rows[t.id], t) else t]
  }

  /** The WHERE clause of the claim; unlike the memory backend it accepts only status 0 and compares
      the schedule with `<=`. */
  predicate Selectable(rows: Table, id: TaskId, now: Time) {
    && id in rows && rows[id].status == Pending
    && (rows[id].scheduledAt.None? || rows[id].scheduledAt.value <= now)
  }

  /** ORDER BY priority ASC, created_at ASC. */
  predicate RowLe(a: Task, b: Task) {
    a.priority < b.priority || (a.priority == b.priority && a.createdAt <= b.createdAt)
  }

  /** A row the ordered SELECT ... LIMIT 1 may return; ties are the database's choice. */
  ghost predicate IsNext(rows: Table, id: TaskId, now: Time) {
    Selectable(rows, id, now) && forall x :: Selectable(rows, x, now) ==> RowLe(rows[id], rows[x])
  }

  /** FOR UPDATE SKIP LOCKED: the first of the rows that no other transaction has locked. */
  ghost predicate IsNextUnlocked(rows: Table, locked: set<TaskId>, id: TaskId, now: Time) {
    && Selectable(rows, id, now) && id !in locked
    && forall x :: Selectable(rows, x, now) && x !in locked ==> RowLe(rows[id], rows[x])
  }

  /** UPDATE ... SET status = 2 WHERE id = ? AND status = 0. */
  predicate ClaimHits(rows: Table, id: TaskId) {
    id in rows && rows[id].status == Pending
  }

  function ClaimRow(rows: Table, id: TaskId, now: Time): Table {
    if ClaimHits(rows, id) then rows[id := rows[id].(status := Running, startedAt := Some(now))] else rows
  }

  function Remove(rows: Table, id: TaskId): Table {
    if id in rows && rows[id].Live() then rows[id := rows[id].(status := Cancelled)] else rows
  }

  /** UPDATE status, error, done_at: a non-final status clears done_at. */
  function UpdateStatus(rows: Table, id: TaskId, status: TaskStatus, error: Blob, now: Time): Table {
    if id in rows then
      rows[id := rows[id].(status := status, error := error, doneAt := if StampsDone(status) then Some(now) else None)]
    else rows
  }

  function UpdateProgress(rows: Table, id: TaskId, p: (int, int)): Table {
    if id in rows then rows[id := rows[id].(progress := p)] else rows
  }

  function UpdateResult(rows: Table, id: TaskId, r: Blob): Table {
    if id in rows then rows[id := rows[id].(result := r)] else rows
  }

  function UpdateMetadata(rows: Table, id: TaskId, m: Blob): Table {
    if id in rows then rows[id := rows[id].(metadata := m)] else rows
  }

  function CancelBatch(rows: Table, b: BatchId): Table {
    TasksCancelled(rows, b)
  }

  function Recovered(t: Task): Task {
    if t.status == Running then t.(status := Pending, startedAt := None, error := EMPTY) else t
  }

  function Recover(rows: Table): Table {
    map id | id in rows :: Recovered(rows[id])
  }

  /** A restart makes a Running row Pending, without start time and error; its other columns, and all columns of the
      other rows, stay. */
  predicate Reopened(a: Task, b: Task) {
    b == if a.status == Running then a.(status := Pending, startedAt := None, error := EMPTY) else a
  }

  /** Recover loses no row, turns exactly the Running rows into Pending ones that are otherwise as they were, leaves
      every other row alone, and is idempotent. */
  lemma RecoverExactly(rows: Table)
    ensures Recover(rows).Keys == rows.Keys
    ensures forall id :: id in rows ==> Reopened(rows[id], Recover(rows)[id])
    ensures Recover(Recover(rows)) == Recover(rows)
  {
  }

  /** The order in which repeated claims at time `now` may empty the table. */
  ghost predicate ClaimOrder(rows: Table, now: Time, ids: seq<TaskId>)
    decreases |ids|
  {
    if ids == [] then forall x :: !Selectable(rows, x, now)
    else IsNext(rows, ids[0], now) && ClaimOrder(ClaimRow(rows, ids[0], now), now, ids[1..])
  }

  ghost predicate DistinctKeys(rows: Table, now: Time) {
    forall x, y :: Selectable(rows, x, now) && Selectable(rows, y, now) && x != y
      ==> rows[x].priority != rows[y].priority || rows[x].createdAt != rows[y].createdAt
  }

  /** With distinct (priority, created_at) pairs the claim order is unique. */
  lemma {:induction false} ClaimOrderIsUnique(rows: Table, now: Time, a: seq<TaskId>, b: seq<TaskId>)
    requires DistinctKeys(rows, now) && ClaimOrder(rows, now, a) && ClaimOrder(rows, now, b)
    ensures a == b
    decreases |a|
  {
    assert b != [] ==> Selectable(rows, b[0], now);
    if a != [] {
      assert Selectable(rows, a[0], now);
      assert a[0] == b[0];
      ClaimOrderIsUnique(ClaimRow(rows, a[0], now), now, a[1..], b[1..]);
    }
  }
}
