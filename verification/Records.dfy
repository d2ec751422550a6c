/** What every step makes of every record, column by column, and what no run changes about a task from its submit to
    its removal (pool/engine.go, pool/memory_backend.go). */
module Records {
  import opened Tasks
  import opened StoreSpec
  import opened Engine
  import opened Ownership
  import opened Capacity
  import opened Activity

  // ---------- one step, column by column ----------

  predicate FailedAt(a: Task, b: Task, error: Blob, now: Time) {
    b == a.(status := Failed, error := error, doneAt := Some(now))
  }

  predicate CancelledAt(a: Task, b: Task, error: Blob, now: Time) {
    b == a.(status := Cancelled, error := error, doneAt := Some(now))
  }

  /** The final write of an execution takes the stored record `a` to `b`. Only a retry brings in the worker's copy `t`,
      and only its progress and metadata, since everything else of it is what is stored. */
  predicate Concludes(verdict: Verdict, t: Task, a: Task, b: Task, ok: bool, result: Blob, error: Blob, now: Time) {
    match verdict
    case Intervene(status) =>
      if status == Paused then b == a.(status := Paused, error := EMPTY) else CancelledAt(a, b, error, now)
    case Complete => b == a.(status := Completed, result := result, error := EMPTY, doneAt := Some(now))
    case Fail => FailedAt(a, b, error, now)
    case Retry =>
      if !ok then FailedAt(a, b, error, now)
      else b == a.(status := Pending, retries := a.retries + 1, error := EMPTY, startedAt := None, doneAt := Some(now),
                   progress := t.progress, metadata := t.metadata)
  }

  predicate Terminates(a: Task, b: Task, error: Blob, now: Time) {
    if a.status == Pending || a.status == Delayed then b == a.(status := Cancelled) else CancelledAt(a, b, error, now)
  }

  /** A restart forgets schedule, times and error, and the retries unless the task was paused. */
  predicate Restarts(a: Task, b: Task) {
    b == a.(status := Pending, retries := if a.status == Paused then a.retries else 0, scheduledAt := None,
            startedAt := None, doneAt := None, error := EMPTY)
  }

  predicate CancelsWaiting(a: Task, b: Task, batch: BatchId) {
    if a.batch == batch && (a.status == Pending || a.status == Delayed) then b == a.(status := Cancelled) else b == a
  }

  /** The id whose record a step writes, or the worker's task that it concludes. */
  function Target(s: State, step: Step): Option<TaskId>
    requires Enabled(s, step)
  {
    match step
    case DoTake(_, id, _) => Some(id)
    case DoReject(w, _, _) => Some(s.ws[w].task.id)
    case DoFlushCached(w) => Some(s.ws[w].task.id)
    case DoRecord(w, _, _, _, _) => Some(s.ws[w].task.id)
    case DoLand(id, _) => Some(id)
    case DoSaveMetadata(id, _) => Some(id)
    case DoTerminateIdle(id, _, _) => Some(id)
    case DoStart(id, _) => Some(id)
    case _ => None
  }

  /** What `step` makes of the stored record `a` of its target. */
  predicate Writes(s: State, step: Step, a: Task, b: Task)
    requires Enabled(s, step)
  {
    match step
    case DoTake(_, _, now) => b == a.(status := Running, startedAt := Some(now))
    case DoReject(_, error, now) => FailedAt(a, b, error, now)
    case DoFlushCached(w) => b == if s.ws[w].cached.Some? then a.(progress := s.ws[w].cached.value) else a
    case DoRecord(w, ok, result, error, now) =>
      Concludes(s.ws[w].verdict, s.ws[w].task, a, b, ok, result, error, now)
    case DoLand(_, p) => b == a.(progress := p)
    case DoSaveMetadata(_, m) => b == a.(metadata := m)
    case DoTerminateIdle(_, error, now) => Terminates(a, b, error, now)
    case DoStart(_, ok) => if ok then Restarts(a, b) else b == a
    case _ => b == a
  }

  /** Which ids are stored: Submit adds one, Remove takes one away. */
  predicate StoresIds(s: State, s': State, step: Step) {
    s'.store.tasks.Keys ==
    match step
    case DoSubmit(t, _) => s.store.tasks.Keys + {t.id}
    case DoRemove(id) => s.store.tasks.Keys - {id}
    case _ => s.store.tasks.Keys
  }

  /** The record `id` of a step that neither adds nor removes it. */
  predicate WritesRecord(s: State, s': State, step: Step, id: TaskId)
    requires Enabled(s, step) && id in s.store.tasks && id in s'.store.tasks
  {
    var a, b := s.store.tasks[id], s'.store.tasks[id];
    if step.DoCancelBatch? then CancelsWaiting(a, b, step.b)
    else if Target(s, step) == Some(id) then Writes(s, step, a, b)
    else b == a
  }

  /** Which ids are queued afterwards. */
  ghost predicate Queues(s: State, s': State, step: Step)
    requires Enabled(s, step)
  {
    var q, q' := s.store.queue, s'.store.queue;
    match step
    case DoTake(_, id, _) => q' == q - {id}
    case DoRecord(w, ok, _, _, _) => q' == if s.ws[w].verdict.Retry? && ok then q + {s.ws[w].task.id} else q
    case DoSubmit(t, ok) => q' == if ok then q + {t.id} else q
    case DoTerminateIdle(id, _, _) => q' == if s.store.tasks[id].Live() then q - {id} else q
    case DoStart(id, ok) => q' == if ok then q + {id} else q
    case DoRemove(id) => q' == q - {id}
    case DoCancelBatch(b) =>
      forall id :: id in q' <==> id in q && id in s.store.tasks
                                 && (s.store.tasks[id].Live() ==> s.store.tasks[id].batch == b)
    case _ => q' == q
  }

  /** The table of effects for one record: what is stored of `id`, which ids are stored, which are queued. */
  ghost predicate Effects(s: State, step: Step, id: TaskId)
    requires Enabled(s, step)
  {
    var s' := Apply(s, step);
    && StoresIds(s, s', step) && Queues(s, s', step)
    && (id in s.store.tasks && step != DoRemove(id) ==> id in s'.store.tasks && WritesRecord(s, s', step, id))
    && (step.DoSubmit? && step.t.id == id ==> id in s'.store.tasks && s'.store.tasks[id] == step.t)
  }

  lemma RecordWrites(s: State, lost: set<TaskId>, step: Step, id: TaskId)
    requires Enabled(s, step) && Owned(s.store, s.ws, lost) && step.DoRecord?
    ensures Effects(s, step, id)
  {
    assert Holds(s.ws[step.w]);
  }

  lemma RejectWrites(s: State, lost: set<TaskId>, step: Step, id: TaskId)
    requires Enabled(s, step) && Owned(s.store, s.ws, lost) && step.DoReject?
    ensures Effects(s, step, id)
  {
    assert Holds(s.ws[step.w]);
  }

  lemma MovesWriteNothing(s: State, step: Step, id: TaskId)
    requires Enabled(s, step) && OnlyMoves(step)
    ensures Effects(s, step, id)
  {
    MovesChangeOneWorker(s, step);
  }

  lemma OpeningWrites(s: State, step: Step, id: TaskId)
    requires Enabled(s, step) && StoreSane(s.store) && (step.DoSubmit? || step.DoStart?)
    ensures Effects(s, step, id)
  {
  }

  lemma ClosingWrites(s: State, step: Step, id: TaskId)
    requires Enabled(s, step) && (step.DoTerminateIdle? || step.DoRemove?)
    ensures Effects(s, step, id)
  {
  }

  lemma BatchCancelWrites(s: State, step: Step, id: TaskId)
    requires Enabled(s, step) && step.DoCancelBatch? && StoreSane(s.store)
    ensures Effects(s, step, id)
  {
  }

  lemma FlushWrites(s: State, step: Step, id: TaskId)
    requires Enabled(s, step) && step.DoFlushCached?
    ensures Effects(s, step, id)
  {
  }

  lemma LandWrites(s: State, step: Step, id: TaskId)
    requires Enabled(s, step) && step.DoLand?
    ensures Effects(s, step, id)
  {
  }

  lemma MetadataWrites(s: State, step: Step, id: TaskId)
    requires Enabled(s, step) && step.DoSaveMetadata?
    ensures Effects(s, step, id)
  {
  }

  lemma OutsideWrites(s: State, lost: set<TaskId>, step: Step, id: TaskId)
    requires Enabled(s, step) && Owned(s.store, s.ws, lost) && Mover(step).None?
    ensures Effects(s, step, id)
  {
    if step.DoSubmit? || step.DoStart? { OpeningWrites(s, step, id); }
    else if step.DoTerminateIdle? || step.DoRemove? { ClosingWrites(s, step, id); }
    else if step.DoCancelBatch? { BatchCancelWrites(s, step, id); }
    else if step.DoLand? { LandWrites(s, step, id); }
    else if step.DoSaveMetadata? { MetadataWrites(s, step, id); }
  }

  /** Every step of every run does to every record, and to the sets of stored and of queued ids, what the table says. */
  lemma StepWritesExactly(s: State, lost: set<TaskId>, step: Step, id: TaskId)
    requires Enabled(s, step) && Owned(s.store, s.ws, lost)
    ensures Effects(s, step, id)
  {
    if Mover(step).None? { OutsideWrites(s, lost, step, id); }
    else if OnlyMoves(step) { MovesWriteNothing(s, step, id); }
    else if step.DoRecord? { RecordWrites(s, lost, step, id); }
    else if step.DoReject? { RejectWrites(s, lost, step, id); }
    else if step.DoFlushCached? { FlushWrites(s, step, id); }
  }

  // ---------- what no run changes ----------

  /** What the caller submitted. */
  predicate SamePayload(a: Task, b: Task) {
    && a.id == b.id && a.kind == b.kind && a.data == b.data && a.priority == b.priority && a.batch == b.batch
    && a.maxRetries == b.maxRetries && a.createdAt == b.createdAt
  }

  /** Task `t` is stored with its payload, and so is every copy of it that a worker holds. */
  ghost predicate Carried(s: State, t: Task) {
    && t.id in s.store.tasks && SamePayload(t, s.store.tasks[t.id])
    && forall i :: 0 <= i < |s.ws| && Holds(s.ws[i]) && s.ws[i].task.id == t.id ==> SamePayload(t, s.ws[i].task)
  }

  lemma StoredIsCarried(s: State, lost: set<TaskId>, t: Task)
    requires Owned(s.store, s.ws, lost) && t.id in s.store.tasks && SamePayload(t, s.store.tasks[t.id])
    ensures Carried(s, t)
  {
  }

  lemma ConclusionKeepsPayload(verdict: Verdict, t: Task, a: Task, b: Task, ok: bool, result: Blob, error: Blob,
                               now: Time)
    requires Concludes(verdict, t, a, b, ok, result, error, now)
    ensures SamePayload(a, b)
    ensures b.status in {Completed, Failed} ==> b.doneAt.Some?
  {
  }

  lemma WriteKeepsPayload(s: State, s': State, step: Step, id: TaskId)
    requires Enabled(s, step) && id in s.store.tasks && id in s'.store.tasks && WritesRecord(s, s', step, id)
    ensures SamePayload(s.store.tasks[id], s'.store.tasks[id])
  {
    var a, b := s.store.tasks[id], s'.store.tasks[id];
    if step.DoRecord? && b != a {
      var x := s.ws[step.w];
      ConclusionKeepsPayload(x.verdict, x.task, a, b, step.ok, step.result, step.error, step.now);
    }
  }

  ghost predicate KeepsStored(steps: seq<Step>, id: TaskId) {
    forall k :: 0 <= k < |steps| ==> steps[k] != DoRemove(id)
  }

  /** No run changes kind, data, priority, batch, retry limit or creation time of a task before it is removed, and the
      workers that execute it have them all. */
  lemma {:induction false} PayloadSurvivesRuns(s: State, lost: set<TaskId>, steps: seq<Step>, t: Task)
    requires CanRun(s, steps) && Owned(s.store, s.ws, lost) && KeepsStored(steps, t.id)
    requires t.id in s.store.tasks && SamePayload(t, s.store.tasks[t.id])
    ensures Carried(After(s, steps), t)
    decreases |steps|
  {
    if steps == [] {
      StoredIsCarried(s, lost, t);
    } else {
      StepWritesExactly(s, lost, steps[0], t.id);
      WriteKeepsPayload(s, Apply(s, steps[0]), steps[0], t.id);
      StepKeepsOwned(s, lost, steps[0]);
      PayloadSurvivesRuns(Apply(s, steps[0]), Lost(s, lost, steps[0]), steps[1..], t);
    }
  }

  /** From the start of the pool: whatever happens around and after its submit, a task that was not removed is stored,
      and executed, as it was submitted. */
  lemma SubmittedIsCarried(cfg: Config, workers: nat, before: seq<Step>, t: Task, ok: bool, later: seq<Step>)
    requires CanRun(Init(cfg, workers), before)
    requires var s := After(Init(cfg, workers), before);
             Enabled(s, DoSubmit(t, ok)) && CanRun(Apply(s, DoSubmit(t, ok)), later) && KeepsStored(later, t.id)
    ensures Carried(After(Apply(After(Init(cfg, workers), before), DoSubmit(t, ok)), later), t)
  {
    var s0 := Init(cfg, workers);
    var s, step, lost := After(s0, before), DoSubmit(t, ok), LostAfter(s0, {}, before);
    OwnershipFromStart(cfg, workers, before);
    StepKeepsOwned(s, lost, step);
    PayloadSurvivesRuns(Apply(s, step), Lost(s, lost, step), later, t);
  }

  // ---------- the done time ----------

  predicate StampedTask(t: Task) {
    t.status == Completed || t.status == Failed ==> t.doneAt.Some?
  }

  /** Every task that completed or failed has a done time. */
  ghost predicate Stamped(s: State) {
    forall id :: id in s.store.tasks ==> StampedTask(s.store.tasks[id])
  }

  lemma StepKeepsStamped(s: State, lost: set<TaskId>, step: Step)
    requires Enabled(s, step) && Owned(s.store, s.ws, lost) && Stamped(s)
    ensures Stamped(Apply(s, step))
  {
    var s' := Apply(s, step);
    forall id | id in s'.store.tasks ensures StampedTask(s'.store.tasks[id]) {
      StepWritesExactly(s, lost, step, id);
      if id in s.store.tasks { WriteStamps(s, s', step, id); }
    }
  }

  lemma WriteStamps(s: State, s': State, step: Step, id: TaskId)
    requires Enabled(s, step) && id in s.store.tasks && id in s'.store.tasks && WritesRecord(s, s', step, id)
    requires StampedTask(s.store.tasks[id])
    ensures StampedTask(s'.store.tasks[id])
  {
    var a, b := s.store.tasks[id], s'.store.tasks[id];
    if step.DoRecord? && b != a {
      var x := s.ws[step.w];
      ConclusionKeepsPayload(x.verdict, x.task, a, b, step.ok, step.result, step.error, step.now);
    }
  }

  lemma {:induction false} StampedInRuns(s: State, lost: set<TaskId>, steps: seq<Step>)
    requires CanRun(s, steps) && Owned(s.store, s.ws, lost) && Stamped(s)
    ensures Stamped(After(s, steps))
    decreases |steps|
  {
    if steps != [] {
      StepKeepsStamped(s, lost, steps[0]);
      StepKeepsOwned(s, lost, steps[0]);
      StampedInRuns(Apply(s, steps[0]), Lost(s, lost, steps[0]), steps[1..]);
    }
  }

  // ---------- which calls are accepted ----------

  /** The states in which a claim, a restart, a termination outside a worker and a removal may happen, and nothing else
      decides about them but the registry, the queue and the schedule. */
  lemma CallsAllowedExactly(s: State, id: TaskId, w: nat, now: Time, ok: bool, error: Blob)
    ensures Enabled(s, DoTake(w, id, now))
       <==> w < |s.ws| && s.ws[w].pc == Idle && id in s.store.queue && id in s.store.tasks
            && var t := s.store.tasks[id];
               (t.status == Pending || t.status == Delayed) && (t.scheduledAt.None? || t.scheduledAt.value < now)
    ensures Enabled(s, DoStart(id, ok))
       <==> id in s.store.tasks && s.store.tasks[id].status in {Delayed, Paused, Failed, Cancelled}
    ensures Enabled(s, DoTerminateIdle(id, error, now))
       <==> id !in s.ctl.registry && id in s.store.tasks
            && s.store.tasks[id].status in {Pending, Delayed, Paused, Failed}
    ensures Enabled(s, DoRemove(id)) <==> id in s.store.tasks && s.store.tasks[id].status != Running
  {
  }
}
