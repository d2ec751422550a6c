/** How many attempts the handler of a task really gets between two restarts (pool/engine.go). */
module Attempts {
  import opened Tasks
  import opened StoreSpec
  import opened Engine
  import opened Ownership
  import opened Capacity
  import opened Activity
  import opened Records

  /** The handler of the task has been called in this execution. */
  predicate Attempting(s: State, x: Worker) {
    (x.pc == Executing && x.task.kind in s.cfg.handlers)
    || x.pc == Returned || x.pc == Judged || x.pc == Cached || x.pc == Flushed
  }

  /** A holder has used one attempt for each retry since the activation, and one more once its handler is called. */
  predicate HolderExact(s: State, h: Activation, x: Worker) {
    Holds(x) ==>
      At(h.runs, x.task.id) == x.task.retries - At(h.base, x.task.id) + if Attempting(s, x) then 1 else 0
  }

  /** A waiting task has used one attempt for each retry since its activation. */
  ghost predicate WaitingExact(s: Store, h: Activation) {
    forall id :: id in s.tasks && s.tasks[id].Live() ==> At(h.runs, id) == s.tasks[id].retries - At(h.base, id)
  }

  ghost predicate AttemptsExact(s: State, h: Activation) {
    && WaitingExact(s.store, h)
    && forall i :: 0 <= i < |s.ws| ==> HolderExact(s, h, s.ws[i])
  }

  /** The history changes only for the task that a step opens or whose handler it calls. */
  predicate Opens(step: Step, id: TaskId) {
    (step.DoSubmit? && step.t.id == id) || (step.DoStart? && step.ok && step.id == id)
  }

  lemma HistoryFrame(s: State, h: Activation, step: Step, id: TaskId)
    requires Enabled(s, step)
    ensures var h' := Tracked(s, h, step);
            && At(h'.base, id) == (if !Opens(step, id) then At(h.base, id) else if step.DoSubmit? then step.t.retries
                                   else if s.store.tasks[id].status == Paused then s.store.tasks[id].retries else 0)
            && At(h'.runs, id) == (if Opens(step, id) then 0
                                   else if step.DoRegister? && Known(s, step.w) && s.ws[step.w].task.id == id
                                     then At(h.runs, id) + 1 else At(h.runs, id))
  {
  }

  // ---------- waiting tasks ----------

  lemma RecordLeavesExact(s: State, lost: set<TaskId>, h: Activation, step: Step, id: TaskId)
    requires Enabled(s, step) && Owned(s.store, s.ws, lost) && AttemptsExact(s, h) && step.DoRecord?
    requires id in Apply(s, step).store.tasks && Apply(s, step).store.tasks[id].Live()
    ensures At(h.runs, id) == Apply(s, step).store.tasks[id].retries - At(h.base, id)
  {
    assert Holds(s.ws[step.w]) && HolderExact(s, h, s.ws[step.w]);
    StepWritesExactly(s, lost, step, id);
  }

  lemma OtherStepsLeaveExact(s: State, s': State, step: Step, id: TaskId, h: Activation)
    requires Enabled(s, step) && WaitingExact(s.store, h) && !step.DoRecord? && !Opens(step, id)
    requires StoresIds(s, s', step) && id in s'.store.tasks && s'.store.tasks[id].Live()
    requires id in s.store.tasks && step != DoRemove(id) ==> WritesRecord(s, s', step, id)
    ensures id in s.store.tasks && s.store.tasks[id].Live()
    ensures At(h.runs, id) == s'.store.tasks[id].retries - At(h.base, id)
  {
  }

  lemma OpenedIsExact(s: State, step: Step, id: TaskId)
    requires Enabled(s, step) && Opens(step, id) && StoreSane(s.store)
    requires id in Apply(s, step).store.tasks
    ensures Apply(s, step).store.tasks[id].retries
         == if step.DoSubmit? then step.t.retries
            else if s.store.tasks[id].status == Paused then s.store.tasks[id].retries else 0
  {
    if step.DoStart? { OpeningWrites(s, step, id); }
  }

  lemma StepKeepsWaitingExact(s: State, lost: set<TaskId>, h: Activation, step: Step)
    requires Enabled(s, step) && Owned(s.store, s.ws, lost) && AttemptsExact(s, h)
    ensures WaitingExact(Apply(s, step).store, Tracked(s, h, step))
  {
    var s', h' := Apply(s, step), Tracked(s, h, step);
    forall id | id in s'.store.tasks && s'.store.tasks[id].Live()
      ensures At(h'.runs, id) == s'.store.tasks[id].retries - At(h'.base, id)
    {
      HistoryFrame(s, h, step, id);
      if step.DoRecord? {
        RecordLeavesExact(s, lost, h, step, id);
      } else if Opens(step, id) {
        OpenedIsExact(s, step, id);
      } else {
        StepWritesExactly(s, lost, step, id);
        OtherStepsLeaveExact(s, s', step, id, h);
        if step.DoRegister? { assert Holds(s.ws[step.w]); }
      }
    }
  }

  // ---------- holders ----------

  /** Only the worker that a step moves changes, and nobody opens a held task. */
  lemma BystanderStaysExact(s: State, lost: set<TaskId>, h: Activation, step: Step, i: nat)
    requires Enabled(s, step) && Owned(s.store, s.ws, lost) && AttemptsExact(s, h)
    requires i < |s.ws| && Mover(step) != Some(i)
    ensures i < |Apply(s, step).ws| && HolderExact(Apply(s, step), Tracked(s, h, step), Apply(s, step).ws[i])
  {
    MoverShape(s, step);
    HistoryFrame(s, h, step, s.ws[i].task.id);
    assert HolderExact(s, h, s.ws[i]);
    if Holds(s.ws[i]) && step.DoRegister? { assert Holds(s.ws[step.w]); }
  }

  ghost predicate MovedExact(s: State, h: Activation, step: Step)
    requires Enabled(s, step) && Mover(step).Some?
  {
    var w := Mover(step).value;
    w < |s.ws| == |Apply(s, step).ws| && HolderExact(Apply(s, step), Tracked(s, h, step), Apply(s, step).ws[w])
  }

  /** A worker that neither takes a task nor calls a handler nor writes keeps what it holds. */
  lemma MoverOnlyMoves(s: State, step: Step)
    requires Enabled(s, step) && OnlyMoves(step) && !step.DoRegister?
    ensures var x, x' := s.ws[step.w], Apply(s, step).ws[step.w];
            Holds(x) == Holds(x') && x.task == x'.task && (Holds(x) ==> Attempting(s, x') == Attempting(s, x))
  {
    MovesChangeOneWorker(s, step);
  }

  lemma MovingKeepsExact(s: State, h: Activation, step: Step)
    requires Enabled(s, step) && AttemptsExact(s, h) && OnlyMoves(step) && !step.DoRegister?
    ensures MovedExact(s, h, step)
  {
    MoverShape(s, step);
    MoverOnlyMoves(s, step);
    assert HolderExact(s, h, s.ws[step.w]);
  }

  lemma RegisteringKeepsExact(s: State, h: Activation, step: Step)
    requires Enabled(s, step) && AttemptsExact(s, h) && step.DoRegister?
    ensures MovedExact(s, h, step)
  {
    assert HolderExact(s, h, s.ws[step.w]);
  }

  lemma TakingIsExact(s: State, h: Activation, step: Step)
    requires Enabled(s, step) && AttemptsExact(s, h) && StoreSane(s.store) && step.DoTake?
    ensures MovedExact(s, h, step)
  {
  }

  lemma FlushingKeepsExact(s: State, h: Activation, step: Step)
    requires Enabled(s, step) && AttemptsExact(s, h) && step.DoFlushCached?
    ensures MovedExact(s, h, step)
  {
    FlushWritesProgress(s, step.w);
    assert HolderExact(s, h, s.ws[step.w]);
  }

  lemma LettingGoIsExact(s: State, h: Activation, step: Step)
    requires Enabled(s, step) && (step.DoRecord? || step.DoReject? || step.DoAbandon?)
    ensures MovedExact(s, h, step)
  {
    MoverShape(s, step);
    assert !Holds(Apply(s, step).ws[step.w]);
  }

  lemma MoverStaysExact(s: State, lost: set<TaskId>, h: Activation, step: Step)
    requires Enabled(s, step) && Owned(s.store, s.ws, lost) && AttemptsExact(s, h) && Mover(step).Some?
    ensures MovedExact(s, h, step)
  {
    if step.DoRegister? { RegisteringKeepsExact(s, h, step); }
    else if step.DoTake? { TakingIsExact(s, h, step); }
    else if step.DoFlushCached? { FlushingKeepsExact(s, h, step); }
    else if OnlyMoves(step) { MovingKeepsExact(s, h, step); }
    else { LettingGoIsExact(s, h, step); }
  }

  lemma StepKeepsAttemptsExact(s: State, lost: set<TaskId>, h: Activation, step: Step)
    requires Enabled(s, step) && Owned(s.store, s.ws, lost) && AttemptsExact(s, h)
    ensures AttemptsExact(Apply(s, step), Tracked(s, h, step))
  {
    var s', h' := Apply(s, step), Tracked(s, h, step);
    StepKeepsWaitingExact(s, lost, h, step);
    MoverShape(s, step);
    if Mover(step).Some? { MoverStaysExact(s, lost, h, step); }
    forall i | 0 <= i < |s'.ws| ensures HolderExact(s', h', s'.ws[i]) {
      if Mover(step) != Some(i) { BystanderStaysExact(s, lost, h, step, i); }
    }
  }

  /** What holds of a state with its history wherever a run from the start has come to. */
  ghost predicate Reached(s: State, lost: set<TaskId>, h: Activation) {
    Owned(s.store, s.ws, lost) && AttemptsExact(s, h) && Bounded(s.store, s.ws, h) && RetriesLeft(s.ws)
  }

  lemma StepKeepsReached(s: State, lost: set<TaskId>, h: Activation, step: Step)
    requires Enabled(s, step) && Reached(s, lost, h)
    ensures Reached(Apply(s, step), Lost(s, lost, step), Tracked(s, h, step))
  {
    StepKeepsOwned(s, lost, step);
    StepKeepsAttemptsExact(s, lost, h, step);
    StepKeepsBounded(s, lost, h, step);
    StepKeepsRetriesLeft(s, step);
  }

  /** In every run, stopping the pool included, the handler has been called exactly once for each retry since the
      activation, plus once in an execution that has reached its handler. */
  lemma {:induction false} ReachedInRuns(s: State, lost: set<TaskId>, h: Activation, steps: seq<Step>)
    requires CanRun(s, steps) && Reached(s, lost, h)
    ensures Reached(After(s, steps), LostAfter(s, lost, steps), TrackedAfter(s, h, steps))
    decreases |steps|
  {
    if steps != [] {
      StepKeepsReached(s, lost, h, steps[0]);
      ReachedInRuns(Apply(s, steps[0]), Lost(s, lost, steps[0]), Tracked(s, h, steps[0]), steps[1..]);
    }
  }

  lemma InitIsReached(cfg: Config, workers: nat)
    ensures Reached(Init(cfg, workers), {}, Activation(map[], map[]))
  {
    InitIsOwned(cfg, workers);
  }

  // ---------- a restarted task ----------

  /** The handler calls for `id` in a run. */
  function HandlerCalls(s: State, steps: seq<Step>, id: TaskId): nat
    requires CanRun(s, steps)
    decreases |steps|
  {
    if steps == [] then 0
    else
      var call := steps[0].DoRegister? && Known(s, steps[0].w) && s.ws[steps[0].w].task.id == id;
      (if call then 1 else 0) + HandlerCalls(Apply(s, steps[0]), steps[1..], id)
  }

  ghost predicate NeverOpened(steps: seq<Step>, id: TaskId) {
    forall k :: 0 <= k < |steps| ==> !Opens(steps[k], id)
  }

  /** Between openings the history counts the handler calls. */
  lemma {:induction false} HistoryCountsCalls(s: State, h: Activation, steps: seq<Step>, id: TaskId)
    requires CanRun(s, steps) && NeverOpened(steps, id)
    ensures var h' := TrackedAfter(s, h, steps);
            At(h'.base, id) == At(h.base, id) && At(h'.runs, id) == At(h.runs, id) + HandlerCalls(s, steps, id)
    decreases |steps|
  {
    if steps != [] {
      HistoryFrame(s, h, steps[0], id);
      HistoryCountsCalls(Apply(s, steps[0]), Tracked(s, h, steps[0]), steps[1..], id);
    }
  }

  /** The retries with which a submit or an accepted start lets `id` begin. */
  function BeginsWith(s: State, step: Step, id: TaskId): int
    requires Enabled(s, step) && Opens(step, id)
  {
    if step.DoStart? && s.store.tasks[id].status == Paused then s.store.tasks[id].retries else 0
  }

  /** The handler calls that a task opened by `step` gets. */
  function Limit(s: State, step: Step, id: TaskId): int
    requires Enabled(s, step) && Opens(step, id)
  {
    var maxRetries := if step.DoSubmit? then step.t.maxRetries else s.store.tasks[id].maxRetries;
    Max(0, maxRetries - BeginsWith(s, step, id)) + 1
  }

  /** `w`'s handler has failed and nobody stops the execution. */
  predicate FailedUnstopped(e: State, w: nat, id: TaskId) {
    WorkerAt(e, w, Returned) && e.ws[w].failed && e.ws[w].task.id == id && id !in e.ctl.signals
  }

  lemma OpenedTaskIsStored(s: State, lost: set<TaskId>, step: Step, id: TaskId)
    requires Enabled(s, step) && Opens(step, id) && Owned(s.store, s.ws, lost)
    ensures var tasks := Apply(s, step).store.tasks;
            && id in tasks && tasks[id].id == id
            && Limit(s, step, id) == Max(0, tasks[id].maxRetries - BeginsWith(s, step, id)) + 1
  {
    if step.DoStart? { OpeningWrites(s, step, id); }
  }

  /** A failed, unstopped execution retries until its `calls` reach `limit`. */
  predicate JudgedBy(e: State, w: nat, id: TaskId, calls: int, limit: int) {
    && calls <= limit
    && (FailedUnstopped(e, w, id) ==> Judge(e, w).ws[w].verdict == if calls == limit then Fail else Retry)
  }

  lemma AttemptsFrom(s: State, lost: set<TaskId>, h: Activation, steps: seq<Step>, id: TaskId, w: nat)
    requires CanRun(s, steps) && Reached(s, lost, h) && NeverOpened(steps, id) && KeepsStored(steps, id)
    requires id in s.store.tasks && At(h.runs, id) == 0
    ensures JudgedBy(After(s, steps), w, id, HandlerCalls(s, steps, id),
                     Max(0, s.store.tasks[id].maxRetries - At(h.base, id)) + 1)
  {
    var e, h' := After(s, steps), TrackedAfter(s, h, steps);
    ReachedInRuns(s, lost, h, steps);
    HistoryCountsCalls(s, h, steps, id);
    PayloadSurvivesRuns(s, lost, steps, s.store.tasks[id]);
    assert TaskBounded(e.store.tasks[id], h');
    if FailedUnstopped(e, w, id) { assert Holds(e.ws[w]) && HolderExact(e, h', e.ws[w]); }
  }

  lemma OpenedFrom(s: State, lost: set<TaskId>, h: Activation, step: Step, later: seq<Step>, id: TaskId, w: nat)
    requires Reached(s, lost, h) && Enabled(s, step) && Opens(step, id)
    requires CanRun(Apply(s, step), later) && NeverOpened(later, id) && KeepsStored(later, id)
    ensures JudgedBy(After(Apply(s, step), later), w, id, HandlerCalls(Apply(s, step), later, id), Limit(s, step, id))
  {
    StepKeepsReached(s, lost, h, step);
    OpenedTaskIsStored(s, lost, step, id);
    HistoryFrame(s, h, step, id);
    AttemptsFrom(Apply(s, step), Lost(s, lost, step), Tracked(s, h, step), later, id, w);
  }

  /** From any point of any run from the start: a task that is submitted or restarted there gets at most
      max(0, maxRetries - base) + 1 handler calls until it is opened again, where `base` is zero unless it was paused;
      and a failed, unstopped execution gives up exactly when they are used up. */
  lemma OpenedTaskGetsItsAttempts(cfg: Config, workers: nat, before: seq<Step>, step: Step, later: seq<Step>,
                                  id: TaskId, w: nat)
    requires CanRun(Init(cfg, workers), before) && NeverOpened(later, id) && KeepsStored(later, id)
    requires var s := After(Init(cfg, workers), before);
             Enabled(s, step) && Opens(step, id) && CanRun(Apply(s, step), later)
    ensures var s := After(Init(cfg, workers), before);
            JudgedBy(After(Apply(s, step), later), w, id, HandlerCalls(Apply(s, step), later, id), Limit(s, step, id))
  {
    var s0, h0 := Init(cfg, workers), Activation(map[], map[]);
    InitIsReached(cfg, workers);
    ReachedInRuns(s0, {}, h0, before);
    OpenedFrom(After(s0, before), LostAfter(s0, {}, before), TrackedAfter(s0, h0, before), step, later, id, w);
  }
}
