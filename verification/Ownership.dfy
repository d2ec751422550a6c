/** Exclusive ownership of running tasks, and the lifecycle graph (pool/engine.go). */
module Ownership {
  import opened Tasks
  import opened StoreSpec
  import opened Engine

  /** The same but for progress and metadata, the only parts of a stored task that are rewritten while it runs. */
  predicate SameCore(a: Task, b: Task) {
    a == b.(progress := a.progress, metadata := a.metadata)
  }

  predicate Holder(ws: seq<Worker>, i: nat, id: TaskId) {
    i < |ws| && Holds(ws[i]) && ws[i].task.id == id
  }

  ghost predicate HeldBySome(ws: seq<Worker>, id: TaskId) {
    exists i: nat :: Holder(ws, i, id)
  }

  predicate QueuedStatus(status: TaskStatus) {
    status == Pending || status == Delayed || status == Cancelled
  }

  /** Tasks abandoned at the semaphore during shutdown: history of a run. */
  function Lost(s: State, lost: set<TaskId>, step: Step): set<TaskId>
    requires Enabled(s, step)
  {
    if step.DoAbandon? then lost + {s.ws[step.w].task.id} else lost
  }

  ghost predicate StoreSane(s: Store) {
    && (forall id :: id in s.tasks ==> s.tasks[id].id == id && s.tasks[id].status != Retrying)
    && (forall id :: id in s.queue ==> id in s.tasks && QueuedStatus(s.tasks[id].status))
  }

  /** Every holder's task is stored as Running, unchanged in its core and held by nobody else. */
  ghost predicate HoldersRun(s: Store, ws: seq<Worker>, lost: set<TaskId>) {
    && (forall i :: 0 <= i < |ws| && Holds(ws[i]) ==>
          ws[i].task.id in s.tasks && SameCore(ws[i].task, s.tasks[ws[i].task.id]) && ws[i].task.status == Running
          && ws[i].task.id !in lost)
    && (forall i, j :: 0 <= i < |ws| && 0 <= j < |ws| && Holds(ws[i]) && Holds(ws[j]) && i != j
          ==> ws[i].task.id != ws[j].task.id)
  }

  /** Stored as Running means held by a worker or abandoned. */
  ghost predicate RunningHeld(s: Store, ws: seq<Worker>, lost: set<TaskId>) {
    && (forall id :: id in s.tasks && s.tasks[id].status == Running && id !in lost
          ==> HeldBySome(ws, id))
    && (forall id :: id in lost ==> id in s.tasks && s.tasks[id].status == Running)
  }

  ghost predicate Owned(s: Store, ws: seq<Worker>, lost: set<TaskId>) {
    StoreSane(s) && HoldersRun(s, ws, lost) && RunningHeld(s, ws, lost)
  }

  // ---------- how each kind of step keeps it ----------

  /** A worker step that neither takes nor gives up the task. */
  lemma WorkerMoves(s: Store, ws: seq<Worker>, lost: set<TaskId>, w: nat, x: Worker)
    requires Owned(s, ws, lost) && w < |ws|
    requires Holds(x) == Holds(ws[w]) && (Holds(x) ==> x.task == ws[w].task)
    ensures Owned(s, ws[w := x], lost)
  {
    forall id | id in s.tasks && s.tasks[id].status == Running && id !in lost
      ensures HeldBySome(ws[w := x], id)
    {
      var i: nat :| Holder(ws, i, id);
      assert Holder(ws[w := x], i, id);
    }
  }

  lemma WorkerTakes(s: Store, ws: seq<Worker>, lost: set<TaskId>, w: nat, id: TaskId, now: Time, x: Worker)
    requires Owned(s, ws, lost) && w < |ws| && !Holds(ws[w]) && Claimable(s, id, now)
    requires Holds(x) && x.task == Claimed(s, id, now).tasks[id]
    ensures Owned(Claimed(s, id, now), ws[w := x], lost)
  {
    var s' := Claimed(s, id, now);
    assert Holder(ws[w := x], w, id);
    forall y | y in s'.tasks && s'.tasks[y].status == Running && y !in lost
      ensures HeldBySome(ws[w := x], y)
    {
      if y != id {
        var i: nat :| Holder(ws, i, y);
        assert Holder(ws[w := x], i, y);
      }
    }
  }

  /** The final write: the holder's task leaves Running as the worker stops holding it. */
  lemma WorkerSettles(s: Store, s': Store, ws: seq<Worker>, lost: set<TaskId>, w: nat, x: Worker)
    requires Owned(s, ws, lost) && w < |ws| && Holds(ws[w]) && !Holds(x)
    requires var id := ws[w].task.id;
             && s'.tasks.Keys == s.tasks.Keys
             && (forall y :: y in s.tasks && y != id ==> s'.tasks[y] == s.tasks[y])
             && s'.tasks[id].id == id && s'.tasks[id].status != Running && s'.tasks[id].status != Retrying
             && (s'.queue == s.queue || (s'.queue == s.queue + {id} && s'.tasks[id].status == Pending))
    ensures Owned(s', ws[w := x], lost)
  {
    var id := ws[w].task.id;
    forall y | y in s'.tasks && s'.tasks[y].status == Running && y !in lost
      ensures HeldBySome(ws[w := x], y)
    {
      var i: nat :| Holder(ws, i, y);
      assert Holder(ws[w := x], i, y);
    }
  }

  lemma WorkerAbandons(s: Store, ws: seq<Worker>, lost: set<TaskId>, w: nat, x: Worker)
    requires Owned(s, ws, lost) && w < |ws| && Holds(ws[w]) && !Holds(x)
    ensures Owned(s, ws[w := x], lost + {ws[w].task.id})
  {
    forall y | y in s.tasks && s.tasks[y].status == Running && y !in lost && y != ws[w].task.id
      ensures HeldBySome(ws[w := x], y)
    {
      var i: nat :| Holder(ws, i, y);
      assert Holder(ws[w := x], i, y);
    }
  }

  /** A store change that leaves running tasks running and makes no others run. */
  ghost predicate Undisturbed(s: Store, s': Store) {
    && StoreSane(s')
    && (forall id :: id in s.tasks && s.tasks[id].status == Running ==>
          id in s'.tasks && SameCore(s.tasks[id], s'.tasks[id]))
    && (forall id :: id in s'.tasks && s'.tasks[id].status == Running ==>
          id in s.tasks && s.tasks[id].status == Running)
  }

  lemma OutsiderWrites(s: Store, s': Store, ws: seq<Worker>, lost: set<TaskId>)
    requires Owned(s, ws, lost) && Undisturbed(s, s')
    ensures Owned(s', ws, lost)
  {
  }

  lemma SettleWrites(s: State, x: Worker, ok: bool, result: Blob, error: Blob, now: Time)
    requires StoreSane(s.store) && x.task.id in s.store.tasks
    ensures var id, s' := x.task.id, Settle(s, x, ok, result, error, now);
            && s'.tasks.Keys == s.store.tasks.Keys
            && (forall y :: y in s.store.tasks && y != id ==> s'.tasks[y] == s.store.tasks[y])
            && s'.tasks[id].id == id && s'.tasks[id].status != Running && s'.tasks[id].status != Retrying
            && (s'.queue == s.store.queue || (s'.queue == s.store.queue + {id} && s'.tasks[id].status == Pending))
  {
  }

  lemma OneWriteDisturbsNothing(s: Store, s': Store, id: TaskId, t: Task)
    requires StoreSane(s) && s'.tasks == s.tasks[id := t] && t.id == id && t.status != Retrying
    requires id in s.tasks && s.tasks[id].status == Running ==> SameCore(s.tasks[id], t)
    requires t.status == Running ==> id in s.tasks && s.tasks[id].status == Running
    requires s'.queue <= s.queue + {id} && (id in s'.queue ==> QueuedStatus(t.status))
    ensures Undisturbed(s, s')
  {
  }

  lemma SubmitDisturbsNothing(s: State, t: Task, ok: bool)
    requires StoreSane(s.store) && Submittable(s, t)
    ensures Undisturbed(s.store, Submit(s, t, ok).store)
  {
    OneWriteDisturbsNothing(s.store, Submit(s, t, ok).store, t.id, t);
  }

  lemma StartDisturbsNothing(s: State, id: TaskId, ok: bool)
    requires StoreSane(s.store) && Startable(s, id)
    ensures Undisturbed(s.store, Start(s, id, ok).store)
  {
    if ok { OneWriteDisturbsNothing(s.store, Start(s, id, ok).store, id, Reactivated(s.store.tasks[id])); }
  }

  lemma TerminateDisturbsNothing(s: State, id: TaskId, error: Blob, now: Time)
    requires StoreSane(s.store) && TerminableIdle(s, id)
    ensures Undisturbed(s.store, TerminateIdle(s, id, error, now).store)
  {
    var s' := TerminateIdle(s, id, error, now).store;
    OneWriteDisturbsNothing(s.store, s', id, s'.tasks[id]);
  }

  lemma FieldWritesDisturbNothing(s: State, step: Step)
    requires Enabled(s, step) && StoreSane(s.store) && (step.DoSaveMetadata? || step.DoLand?)
    ensures Undisturbed(s.store, Apply(s, step).store)
  {
    var s' := Apply(s, step).store;
    if s' != s.store { OneWriteDisturbsNothing(s.store, s', step.id, s'.tasks[step.id]); }
  }

  lemma DeletionDisturbsNothing(s: Store, id: TaskId)
    requires StoreSane(s) && (id in s.tasks ==> s.tasks[id].status != Running)
    ensures Undisturbed(s, Deleted(s, id))
  {
  }

  lemma BatchCancelDisturbsNothing(s: Store, b: BatchId)
    requires StoreSane(s)
    ensures Undisturbed(s, BatchCancelled(s, b))
  {
  }

  lemma OutsideStepsKeepOwned(s: State, lost: set<TaskId>, step: Step)
    requires Enabled(s, step) && Owned(s.store, s.ws, lost)
    requires Apply(s, step).ws == s.ws && !step.DoAbandon?
    ensures var s' := Apply(s, step); Owned(s'.store, s'.ws, Lost(s, lost, step))
  {
    if step.DoSubmit? { SubmitDisturbsNothing(s, step.t, step.ok); }
    else if step.DoStart? { StartDisturbsNothing(s, step.id, step.ok); }
    else if step.DoTerminateIdle? { TerminateDisturbsNothing(s, step.id, step.error, step.now); }
    else if step.DoSaveMetadata? || step.DoLand? { FieldWritesDisturbNothing(s, step); }
    else if step.DoRemove? { DeletionDisturbsNothing(s.store, step.id); }
    else if step.DoCancelBatch? { BatchCancelDisturbsNothing(s.store, step.b); }
    if Undisturbed(s.store, Apply(s, step).store) {
      OutsiderWrites(s.store, Apply(s, step).store, s.ws, lost);
    }
  }

  /** The calls that change at most the progress or the metadata of a stored task. */
  predicate WritesFields(step: Step) {
    step.DoReport? || step.DoLand? || step.DoSaveMetadata? || step.DoSignal? || step.DoDeliver? || step.DoShutdown?
  }

  /** The same queue, and the same tasks but for progress and metadata. */
  ghost predicate SameRecords(s: Store, s': Store) {
    && s'.queue == s.queue && s'.tasks.Keys == s.tasks.Keys
    && forall id :: id in s.tasks ==>
         s'.tasks[id] == s.tasks[id].(progress := s'.tasks[id].progress, metadata := s'.tasks[id].metadata)
  }

  lemma FieldWritesKeepRecords(s: State, step: Step)
    requires Enabled(s, step) && WritesFields(step)
    ensures SameRecords(s.store, Apply(s, step).store)
  {
    match step
    case DoSaveMetadata(id, m) => MetadataWritten(s.store, id, m);
    case DoLand(id, p) => ProgressWritten(s.store, id, p);
    case _ =>
  }

  lemma MetadataWritten(s: Store, id: TaskId, m: Blob)
    ensures SameRecords(s, WithMetadata(s, id, m))
  {
  }

  lemma ProgressWritten(s: Store, id: TaskId, p: (int, int))
    ensures SameRecords(s, WithProgress(s, id, p))
  {
  }

  lemma SameRecordsSameStatus(s: Store, s': Store, id: TaskId)
    requires SameRecords(s, s')
    ensures StatusOf(s', id) == StatusOf(s, id)
  {
  }

  /** The steps that change only where one worker stands, not what it holds. */
  predicate OnlyMoves(step: Step) {
    || step.DoAdmit? || step.DoEnterGauge? || step.DoRegister? || step.DoReturn? || step.DoJudge? || step.DoReadCache?
    || step.DoCount? || step.DoFire? || step.DoUnlist? || step.DoLeaveGauge? || step.DoRelease?
  }

  lemma MovesChangeOneWorker(s: State, step: Step)
    requires Enabled(s, step) && OnlyMoves(step)
    ensures var s' := Apply(s, step);
            && step.w < |s.ws| == |s'.ws| && s'.ws == s.ws[step.w := s'.ws[step.w]] && s'.store == s.store
            && Holds(s'.ws[step.w]) == Holds(s.ws[step.w]) && s'.ws[step.w].task == s.ws[step.w].task
  {
  }

  /** The final write touches only the held task's record. */
  lemma SettleTouchesOne(s: State, lost: set<TaskId>, step: Step)
    requires Enabled(s, step) && Owned(s.store, s.ws, lost) && (step.DoReject? || step.DoRecord?)
    ensures var id, s' := s.ws[step.w].task.id, Apply(s, step).store;
            && s'.tasks.Keys == s.store.tasks.Keys
            && (forall y :: y in s.store.tasks && y != id ==> s'.tasks[y] == s.store.tasks[y])
  {
    assert Holds(s.ws[step.w]);
    if step.DoRecord? { SettleWrites(s, s.ws[step.w], step.ok, step.result, step.error, step.now); }
  }

  lemma SettlingStepsKeepOwned(s: State, lost: set<TaskId>, step: Step)
    requires Enabled(s, step) && Owned(s.store, s.ws, lost) && (step.DoReject? || step.DoRecord?)
    ensures var s' := Apply(s, step); Owned(s'.store, s'.ws, lost)
  {
    var s' := Apply(s, step);
    if step.DoRecord? { SettleWrites(s, s.ws[step.w], step.ok, step.result, step.error, step.now); }
    WorkerSettles(s.store, s'.store, s.ws, lost, step.w, s'.ws[step.w]);
  }

  /** The flush of a pause writes nothing but the held task's progress, and the worker keeps holding it. */
  lemma FlushWritesProgress(s: State, w: nat)
    requires Enabled(s, DoFlushCached(w))
    ensures var s', x := FlushCached(s, w), s.ws[w];
            var id := x.task.id;
            && s'.ws == s.ws[w := s'.ws[w]] && Holds(x) && Holds(s'.ws[w]) && s'.ws[w].task == x.task
            && s'.store.queue == s.store.queue && s'.store.tasks.Keys == s.store.tasks.Keys
            && (forall y :: y in s.store.tasks && y != id ==> s'.store.tasks[y] == s.store.tasks[y])
            && (id in s.store.tasks ==> s'.store.tasks[id] == s.store.tasks[id].(
                 progress := s'.store.tasks[id].progress))
  {
  }

  lemma FlushKeepsOwned(s: State, lost: set<TaskId>, w: nat)
    requires Enabled(s, DoFlushCached(w)) && Owned(s.store, s.ws, lost)
    ensures var s' := FlushCached(s, w); Owned(s'.store, s'.ws, lost)
  {
    var s' := FlushCached(s, w);
    FlushWritesProgress(s, w);
    WorkerMoves(s.store, s.ws, lost, w, s'.ws[w]);
    OutsiderWrites(s.store, s'.store, s'.ws, lost);
  }

  lemma StepKeepsOwned(s: State, lost: set<TaskId>, step: Step)
    requires Enabled(s, step) && Owned(s.store, s.ws, lost)
    ensures var s' := Apply(s, step); Owned(s'.store, s'.ws, Lost(s, lost, step))
  {
    var s' := Apply(s, step);
    if OnlyMoves(step) {
      MovesChangeOneWorker(s, step);
      WorkerMoves(s.store, s.ws, lost, step.w, s'.ws[step.w]);
    } else if step.DoFlushCached? {
      FlushKeepsOwned(s, lost, step.w);
    } else if step.DoTake? {
      WorkerTakes(s.store, s.ws, lost, step.w, step.id, step.now, s'.ws[step.w]);
    } else if step.DoAbandon? {
      WorkerAbandons(s.store, s.ws, lost, step.w, s'.ws[step.w]);
    } else if step.DoReject? || step.DoRecord? {
      SettlingStepsKeepOwned(s, lost, step);
    } else {
      OutsideStepsKeepOwned(s, lost, step);
    }
  }

  function LostAfter(s: State, lost: set<TaskId>, steps: seq<Step>): set<TaskId>
    requires CanRun(s, steps)
    decreases |steps|
  {
    if steps == [] then lost else LostAfter(Apply(s, steps[0]), Lost(s, lost, steps[0]), steps[1..])
  }

  /** Exclusive ownership in every reachable state of any number of workers: no id is held twice, every
      held id is stored as Running, and a stored Running id has its holder unless it was abandoned at
      the semaphore while the pool was stopping. */
  lemma {:induction false} OwnershipIsExclusive(s: State, lost: set<TaskId>, steps: seq<Step>)
    requires Owned(s.store, s.ws, lost) && CanRun(s, steps)
    ensures var e := After(s, steps); Owned(e.store, e.ws, LostAfter(s, lost, steps))
    decreases |steps|
  {
    if steps != [] {
      StepKeepsOwned(s, lost, steps[0]);
      OwnershipIsExclusive(Apply(s, steps[0]), Lost(s, lost, steps[0]), steps[1..]);
    }
  }

  lemma InitIsOwned(cfg: Config, workers: nat)
    ensures var s := Init(cfg, workers); Owned(s.store, s.ws, {})
  {
  }

  lemma OwnershipFromStart(cfg: Config, workers: nat, steps: seq<Step>)
    requires CanRun(Init(cfg, workers), steps)
    ensures var e := After(Init(cfg, workers), steps); Owned(e.store, e.ws, LostAfter(Init(cfg, workers), {}, steps))
  {
    InitIsOwned(cfg, workers);
    OwnershipIsExclusive(Init(cfg, workers), {}, steps);
  }

  // ---------- the lifecycle graph ----------

  function StatusOf(s: Store, id: TaskId): Option<TaskStatus> {
    if id in s.tasks then Some(s.tasks[id].status) else None
  }

  /** The edges of the lifecycle graph, staying put included; None is a task that is not stored. */
  predicate Edge(a: Option<TaskStatus>, b: Option<TaskStatus>) {
    a == b ||
    match a
    case None => b == Some(Pending) || b == Some(Delayed)
    case Some(Pending) => b == None || b == Some(Running) || b == Some(Cancelled)
    case Some(Delayed) => b == None || b == Some(Running) || b == Some(Cancelled) || b == Some(Pending)
    case Some(Running) => b == Some(Completed) || b == Some(Failed) || b == Some(Paused) || b == Some(Cancelled)
                          || b == Some(Pending)
    case Some(Completed) => b == None
    case Some(Failed) => b == None || b == Some(Pending) || b == Some(Cancelled)
    case Some(Cancelled) => b == None || b == Some(Pending)
    case Some(Paused) => b == None || b == Some(Pending) || b == Some(Cancelled)
    case Some(Retrying) => false
  }

  /** Which kinds of step may take a task along which edge. */
  predicate EdgeBy(step: Step, a: Option<TaskStatus>, b: Option<TaskStatus>) {
    Edge(a, b) && (a == b ||
    match step
    case DoTake(_, _, _) => b == Some(Running)
    case DoReject(_, _, _) => a == Some(Running) && b == Some(Failed)
    case DoRecord(_, _, _, _, _) => a == Some(Running)
    case DoSubmit(_, _) => a == None
    case DoTerminateIdle(_, _, _) => b == Some(Cancelled)
    case DoStart(_, _) => b == Some(Pending)
    case DoRemove(_) => b == None
    case DoCancelBatch(_) => b == Some(Cancelled)
    case _ => false)
  }

  lemma SettlingFollowsTheGraph(s: State, lost: set<TaskId>, step: Step, id: TaskId)
    requires Enabled(s, step) && Owned(s.store, s.ws, lost) && (step.DoReject? || step.DoRecord?)
    ensures EdgeBy(step, StatusOf(s.store, id), StatusOf(Apply(s, step).store, id))
  {
    assert Holds(s.ws[step.w]);
    if step.DoRecord? { SettleWrites(s, s.ws[step.w], step.ok, step.result, step.error, step.now); }
  }

  lemma SubmitFollowsTheGraph(s: State, step: Step, id: TaskId)
    requires Enabled(s, step) && step.DoSubmit?
    ensures EdgeBy(step, StatusOf(s.store, id), StatusOf(Apply(s, step).store, id))
  {
  }

  lemma StartFollowsTheGraph(s: State, lost: set<TaskId>, step: Step, id: TaskId)
    requires Enabled(s, step) && Owned(s.store, s.ws, lost) && step.DoStart?
    ensures EdgeBy(step, StatusOf(s.store, id), StatusOf(Apply(s, step).store, id))
  {
  }

  lemma TerminationFollowsTheGraph(s: State, lost: set<TaskId>, step: Step, id: TaskId)
    requires Enabled(s, step) && Owned(s.store, s.ws, lost) && step.DoTerminateIdle?
    ensures EdgeBy(step, StatusOf(s.store, id), StatusOf(Apply(s, step).store, id))
  {
  }

  lemma RemovalFollowsTheGraph(s: State, step: Step, id: TaskId)
    requires Enabled(s, step) && step.DoRemove? && StoreSane(s.store)
    ensures EdgeBy(step, StatusOf(s.store, id), StatusOf(Apply(s, step).store, id))
  {
  }

  lemma BatchCancelFollowsTheGraph(s: State, step: Step, id: TaskId)
    requires Enabled(s, step) && step.DoCancelBatch?
    ensures EdgeBy(step, StatusOf(s.store, id), StatusOf(Apply(s, step).store, id))
  {
  }

  /** Every step of every run moves every task along an edge of the graph that its kind allows. In
      particular Completed is left only by Remove and Retrying is never entered. */
  lemma StepsFollowTheGraph(s: State, lost: set<TaskId>, step: Step, id: TaskId)
    requires Enabled(s, step) && Owned(s.store, s.ws, lost)
    ensures EdgeBy(step, StatusOf(s.store, id), StatusOf(Apply(s, step).store, id))
  {
    if OnlyMoves(step) {
      MovesChangeOneWorker(s, step);
    } else if step.DoReject? || step.DoRecord? {
      SettlingFollowsTheGraph(s, lost, step, id);
    } else if step.DoSubmit? {
      SubmitFollowsTheGraph(s, step, id);
    } else if step.DoStart? {
      StartFollowsTheGraph(s, lost, step, id);
    } else if step.DoTerminateIdle? {
      TerminationFollowsTheGraph(s, lost, step, id);
    } else if step.DoFlushCached? {
      FlushWritesProgress(s, step.w);
    } else if step.DoRemove? {
      RemovalFollowsTheGraph(s, step, id);
    } else if step.DoCancelBatch? {
      BatchCancelFollowsTheGraph(s, step, id);
    } else if WritesFields(step) {
      FieldWritesKeepRecords(s, step);
      SameRecordsSameStatus(s.store, Apply(s, step).store, id);
    }
  }
}
