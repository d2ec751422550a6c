/** The database backends as objects over a row table (pool/sqlite_backend.go, pool/mysql_backend.go), with the calls
    the pool makes on them. Each statement takes effect at once; how claimers interleave is the subject of
    `SqlClaims`. */
module SqlBackends {
  import opened Tasks
  import opened StoreSpec
  import E = Engine
  import Records
  import Rows

  /** Rows after Recover has visited all but `todo`. */
  predicate PartlyRecovered(rows: Rows.Table, was: Rows.Table, todo: set<TaskId>) {
    rows.Keys == was.Keys && forall id :: id in was ==>
      rows[id] == if id in todo then was[id] else Rows.Recovered(was[id])
  }

  class SqliteBackend {
    var rows: Rows.Table

    constructor ()
      ensures rows == map[]
    {
      rows := map[];
    }

    /** Submit's INSERT and Enqueue: refused exactly on a stored id; otherwise the row is the submitted task, the
        re-enqueue of the fresh row changing nothing. */
    method Submit(t: Task) returns (r: Result<()>)
      modifies this
      ensures r == if t.id in old(rows) then Err(DuplicateKey) else Ok(())
      ensures rows == if t.id in old(rows) then old(rows) else old(rows)[t.id := t]
    {
      if t.id in rows {
        return Err(DuplicateKey);
      }
      rows := rows[t.id := t];
      Enqueue(t);
      return Ok(());
    }

    /** Inserts a new task, or updates the scheduling columns of a stored one. */
    method Enqueue(t: Task)
      modifies this
      ensures rows == Rows.Enqueue(old(rows), t)
    {
      if t.id !in rows {
        rows := rows[t.id := t];
      } else {
        rows := rows[t.id := Rows.Rescheduled(rows[t.id], t)];
      }
    }

    /** Start and Continue: the row becomes exactly what the pool's Start makes of a task, and claimable at once. */
    method Start(id: TaskId) returns (r: Result<()>)
      modifies this
      ensures r.Ok? <==> E.Startable(SqlState(old(rows)), id)
      ensures r.Err? ==> rows == old(rows) && r.error == if id in old(rows) then TaskNotStartable else TaskNotFound
      ensures r.Ok? && old(rows)[id].id == id ==>
                rows == old(rows)[id := E.Reactivated(old(rows)[id])] && forall now :: Rows.Selectable(rows, id, now)
      ensures r.Ok? && old(rows)[id].id == id ==> Records.Restarts(old(rows)[id], rows[id])
    {
      if id !in rows {
        return Err(TaskNotFound);
      }
      var task := rows[id];
      if !(task.status == Delayed || task.status == Paused || task.status == Failed || task.status == Cancelled) {
        return Err(TaskNotStartable);
      }
      if task.status != Paused {
        task := task.(retries := 0);
      }
      Enqueue(task.(status := Pending, scheduledAt := None, startedAt := None, doneAt := None, error := EMPTY));
      return Ok(());
    }

    /** SELECT id ... ORDER BY priority, created_at LIMIT 1. */
    method SelectNext(now: Time) returns (r: Option<TaskId>)
      ensures r.Some? ==> Rows.IsNext(rows, r.value, now)
      ensures r.None? ==> forall id :: !Rows.Selectable(rows, id, now)
    {
      r := None;
      var todo := rows.Keys;
      while todo != {}
        invariant todo <= rows.Keys
        invariant r.Some? ==> Rows.Selectable(rows, r.value, now)
        invariant forall id :: Rows.Selectable(rows, id, now) && id !in todo ==>
                    r.Some? && Rows.RowLe(rows[r.value], rows[id])
        decreases |todo|
      {
        var id :| id in todo;
        if Rows.Selectable(rows, id, now) && (r.None? || !Rows.RowLe(rows[r.value], rows[id])) {
          r := Some(id);
        }
        todo := todo - {id};
      }
    }

    /** SELECT, conditional UPDATE, re-read. Undisturbed in between, it claims a row the order allows. */
    method ClaimNextTask(now: Time) returns (r: Option<Task>)
      modifies this
      ensures r.None? <==> forall id :: !Rows.Selectable(old(rows), id, now)
      ensures r.None? ==> rows == old(rows)
      ensures r.Some? ==> exists id :: Rows.IsNext(old(rows), id, now) && rows == Rows.ClaimRow(old(rows), id, now)
                                       && r.value == rows[id] && r.value.status == Running
    {
      var id := SelectNext(now);
      if id.None? {
        return None;
      }
      var affected := id.value in rows && rows[id.value].status == Pending;
      if affected {
        rows := rows[id.value := rows[id.value].(status := Running, startedAt := Some(now))];
      } else {
        return None;
      }
      return Some(rows[id.value]);
    }

    /** Terminate on a task that is not registered: the conditional UPDATE on waiting rows, else a read and a status
        write. It succeeds in the same states and stores the same row as on the memory backend. */
    method TerminateIdle(id: TaskId, error: Blob, now: Time) returns (r: Result<()>)
      modifies this
      ensures r.Ok? <==> E.TerminableIdle(SqlState(old(rows)), id)
      ensures r.Ok? ==> rows == E.TerminateIdle(SqlState(old(rows)), id, error, now).store.tasks
      ensures r.Err? ==> rows == old(rows)
      ensures r.Err? ==> r.error == if id in rows then NotTerminable(rows[id].status) else TaskNotFound
    {
      if id in rows && (rows[id].status == Pending || rows[id].status == Delayed) {
        rows := rows[id := rows[id].(status := Cancelled)];
        return Ok(());
      }
      if id !in rows {
        return Err(TaskNotFound);
      }
      if rows[id].status == Paused || rows[id].status == Failed {
        UpdateStatus(id, Cancelled, error, now);
        return Ok(());
      }
      return Err(NotTerminable(rows[id].status));
    }

    method UpdateStatus(id: TaskId, status: TaskStatus, error: Blob, now: Time)
      modifies this
      ensures rows == Rows.UpdateStatus(old(rows), id, status, error, now)
      ensures id in rows ==>
                rows[id].doneAt == if status == Completed || status == Failed || status == Cancelled then Some(now)
                                   else None
    {
      var doneAt: Option<Time> := None;
      if status == Completed || status == Failed || status == Cancelled {
        doneAt := Some(now);
      }
      if id in rows {
        rows := rows[id := rows[id].(status := status, error := error, doneAt := doneAt)];
      }
    }

    /** UPDATE ... WHERE batch_id = ? AND status IN (0, 1), row by row: exactly the batch's waiting rows. */
    method CancelBatch(b: BatchId) returns (affected: nat)
      modifies this
      ensures rows == Rows.CancelBatch(old(rows), b)
      ensures affected == |WaitingIn(old(rows), b)|
    {
      affected := 0;
      var todo := rows.Keys;
      CancelBounds(rows, b);
      while todo != {}
        invariant todo <= rows.Keys == old(rows).Keys
        invariant rows == PartlyCancelled(old(rows), todo, b)
        invariant affected == |WaitingIn(old(rows), b) - todo|
        decreases |todo|
      {
        var id :| id in todo;
        CancelOne(old(rows), todo, b, id);
        if rows[id].batch == b && (rows[id].status == Pending || rows[id].status == Delayed) {
          rows := rows[id := rows[id].(status := Cancelled)];
          affected := affected + 1;
        }
        todo := todo - {id};
      }
    }

    /** UPDATE ... WHERE status = 2, row by row. */
    method Recover()
      modifies this
      ensures rows == Rows.Recover(old(rows))
      ensures rows.Keys == old(rows).Keys && forall id :: id in rows ==> Rows.Reopened(old(rows)[id], rows[id])
    {
      var todo := rows.Keys;
      while todo != {}
        invariant todo <= rows.Keys && PartlyRecovered(rows, old(rows), todo)
        decreases |todo|
      {
        var id :| id in todo;
        if rows[id].status == Running {
          rows := rows[id := rows[id].(status := Pending, startedAt := None, error := EMPTY)];
        }
        todo := todo - {id};
      }
    }
  }

  /** A row table seen as the pool's store: nothing is queued outside the table. */
  function SqlState(rows: Rows.Table): E.State {
    E.Init(E.Config({}, map[], false), 0).(store := Store(rows, {}))
  }

  // ---------- MySQL ----------

  /** The INSERT lists neither the execution times nor the result. */
  function Inserted(t: Task): Task {
    t.(startedAt := None, doneAt := None, result := EMPTY)
  }

  /** The row scan reads the metadata column and drops it. */
  function Scanned(row: Task): Task {
    row.(metadata := EMPTY)
  }

  /** A stored task reads back unchanged exactly when it has no metadata; the row itself keeps it. */
  lemma ReadBackExactly(t: Task)
    requires t.startedAt.None? && t.doneAt.None? && t.result == EMPTY
    ensures Scanned(Inserted(t)) == t <==> t.metadata == EMPTY
    ensures Inserted(t).metadata == t.metadata
  {
  }

  class MysqlBackend {
    var rows: Rows.Table

    constructor ()
      ensures rows == map[]
    {
      rows := map[];
    }

    /** Submit's INSERT and Enqueue: the row is the submitted task without a result. */
    method Submit(t: Task) returns (r: Result<()>)
      modifies this
      ensures r == if t.id in old(rows) then Err(DuplicateKey) else Ok(())
      ensures rows == if t.id in old(rows) then old(rows) else old(rows)[t.id := t.(result := EMPTY)]
    {
      if t.id in rows {
        return Err(DuplicateKey);
      }
      rows := rows[t.id := Inserted(t)];
      Enqueue(t);
      return Ok(());
    }

    /** On a stored task only the scheduling columns change, so the row keeps its metadata. */
    method Enqueue(t: Task)
      modifies this
      ensures rows == if t.id in old(rows) then Rows.Enqueue(old(rows), t) else old(rows)[t.id := Inserted(t)]
    {
      if t.id in rows {
        rows := rows[t.id := Rows.Rescheduled(rows[t.id], t)];
      } else {
        rows := rows[t.id := Inserted(t)];
      }
    }

    /** Start and Continue: although the pool's copy has lost the metadata, the row keeps it. */
    method Start(id: TaskId) returns (r: Result<()>)
      modifies this
      ensures r.Ok? <==> E.Startable(SqlState(old(rows)), id)
      ensures r.Err? ==> rows == old(rows) && r.error == if id in old(rows) then TaskNotStartable else TaskNotFound
      ensures r.Ok? && old(rows)[id].id == id ==>
                rows == old(rows)[id := E.Reactivated(old(rows)[id])] && forall now :: Rows.Selectable(rows, id, now)
      ensures r.Ok? && old(rows)[id].id == id ==> Records.Restarts(old(rows)[id], rows[id])
    {
      if id !in rows {
        return Err(TaskNotFound);
      }
      var task := Scanned(rows[id]);
      if !(task.status == Delayed || task.status == Paused || task.status == Failed || task.status == Cancelled) {
        return Err(TaskNotStartable);
      }
      if task.status != Paused {
        task := task.(retries := 0);
      }
      Enqueue(task.(status := Pending, scheduledAt := None, startedAt := None, doneAt := None, error := EMPTY));
      return Ok(());
    }

    /** SELECT ... FOR UPDATE SKIP LOCKED and UPDATE in one transaction, while others hold `locked`: it claims whenever
        an unlocked row is claimable, and the worker's copy lacks the metadata. */
    method ClaimNextTask(now: Time, locked: set<TaskId>) returns (r: Option<Task>)
      modifies this
      ensures r.None? <==> forall id :: Rows.Selectable(old(rows), id, now) ==> id in locked
      ensures r.None? ==> rows == old(rows)
      ensures r.Some? ==> exists id :: Rows.IsNextUnlocked(old(rows), locked, id, now) && id !in locked
                                       && rows == Rows.ClaimRow(old(rows), id, now) && r.value == Scanned(rows[id])
    {
      var next: Option<TaskId> := None;
      var todo := rows.Keys;
      while todo != {}
        invariant todo <= rows.Keys
        invariant next.Some? ==> Rows.Selectable(rows, next.value, now) && next.value !in locked
        invariant forall id :: Rows.Selectable(rows, id, now) && id !in locked && id !in todo ==>
                    next.Some? && Rows.RowLe(rows[next.value], rows[id])
        decreases |todo|
      {
        var id :| id in todo;
        if Rows.Selectable(rows, id, now) && id !in locked && (next.None? || !Rows.RowLe(rows[next.value], rows[id])) {
          next := Some(id);
        }
        todo := todo - {id};
      }
      if next.None? {
        return None;
      }
      var id := next.value;
      assert Rows.IsNextUnlocked(rows, locked, id, now);
      var task := Scanned(rows[id]);
      rows := rows[id := rows[id].(status := Running, startedAt := Some(now))];
      assert rows == Rows.ClaimRow(old(rows), id, now);
      return Some(task.(status := Running, startedAt := Some(now)));
    }
  }
}
