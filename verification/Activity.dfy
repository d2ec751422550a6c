/** How often a task's handler can run, why the workers come to rest, and which records no worker will see
    (pool/engine.go). */
module Activity {
  import opened Tasks
  import opened StoreSpec
  import opened Engine
  import opened Ownership
  import opened Capacity

  function Max(a: int, b: int): int {
    if a < b then b else a
  }

  /** Retries are only decided while some are left. */
  ghost predicate RetriesLeft(ws: seq<Worker>) {
    forall i :: 0 <= i < |ws| && (ws[i].pc == Judged || ws[i].pc == Cached || ws[i].pc == Flushed)
        && ws[i].verdict.Retry?
      ==> ws[i].task.retries < ws[i].task.maxRetries
  }

  lemma StepKeepsRetriesLeft(s: State, step: Step)
    requires Enabled(s, step) && RetriesLeft(s.ws)
    ensures RetriesLeft(Apply(s, step).ws)
  {
    MoverShape(s, step);
  }

  /** The worker steps that change a stored task. */
  predicate TouchesTask(step: Step) {
    step.DoTake? || step.DoFlushCached? || step.DoRecord? || step.DoReject?
  }

  // ---------- handler runs per activation ----------

  /** History: for each id, the handler runs since it was last submitted or started, and its retry count at
      that moment. */
  datatype Activation = Activation(runs: map<TaskId, int>, base: map<TaskId, int>)

  function Tracked(s: State, h: Activation, step: Step): Activation
    requires Enabled(s, step)
  {
    match step
    case DoSubmit(t, _) => Activation(h.runs[t.id := 0], h.base[t.id := t.retries])
    case DoStart(id, ok) =>
      var t := s.store.tasks[id];
      if ok then Activation(h.runs[id := 0], h.base[id := if t.status == Paused then t.retries else 0]) else h
    case DoRegister(w) =>
      var id := s.ws[w].task.id;
      if Known(s, w) then h.(runs := h.runs[id := At(h.runs, id) + 1]) else h
    case _ => h
  }

  predicate BeforeHandler(x: Worker) {
    x.pc == Holding || x.pc == Admitted || x.pc == Gauged
  }

  /** The bound for one stored task: one run per retry count passed, plus the current one. */
  predicate TaskBounded(t: Task, h: Activation) {
    var base := At(h.base, t.id);
    && At(h.runs, t.id) <= t.retries - base + (if t.Live() then 0 else 1)
    && base <= t.retries <= Max(base, t.maxRetries)
  }

  ghost predicate Bounded(s: Store, ws: seq<Worker>, h: Activation) {
    && (forall id :: id in s.tasks ==> TaskBounded(s.tasks[id], h))
    && (forall i :: 0 <= i < |ws| && BeforeHandler(ws[i]) ==>
          At(h.runs, ws[i].task.id) <= ws[i].task.retries - At(h.base, ws[i].task.id))
  }

  lemma TakeKeepsBounded(s: State, lost: set<TaskId>, h: Activation, step: Step)
    requires Enabled(s, step) && Owned(s.store, s.ws, lost) && Bounded(s.store, s.ws, h) && step.DoTake?
    ensures Bounded(Apply(s, step).store, Apply(s, step).ws, h)
  {
  }

  lemma RegisterKeepsBounded(s: State, lost: set<TaskId>, h: Activation, w: nat)
    requires WorkerAt(s, w, Gauged) && Owned(s.store, s.ws, lost) && Bounded(s.store, s.ws, h)
    ensures Bounded(Register(s, w).store, Register(s, w).ws, Tracked(s, h, DoRegister(w)))
  {
    assert Holds(s.ws[w]);
  }

  lemma RewriteKeepsBounded(s: Store, s': Store, ws: seq<Worker>, w: nat, x: Worker, h: Activation, id: TaskId)
    requires Bounded(s, ws, h) && w < |ws| && !BeforeHandler(x)
    requires s'.tasks.Keys == s.tasks.Keys && (forall y :: y in s.tasks && y != id ==> s'.tasks[y] == s.tasks[y])
    requires id in s.tasks && TaskBounded(s'.tasks[id], h)
    ensures Bounded(s', ws[w := x], h)
  {
  }

  lemma SettledIsBounded(s: State, x: Worker, h: Activation, ok: bool, result: Blob, error: Blob, now: Time)
    requires x.task.id in s.store.tasks && SameCore(x.task, s.store.tasks[x.task.id]) && x.task.status == Running
    requires TaskBounded(s.store.tasks[x.task.id], h)
    requires x.verdict.Retry? ==> x.task.retries < x.task.maxRetries
    ensures var s' := Settle(s, x, ok, result, error, now);
            x.task.id in s'.tasks && TaskBounded(s'.tasks[x.task.id], h)
  {
  }

  /** Worker `w`'s task is stored within its bound, and nothing else of the workers changed. */
  ghost predicate WrittenWithin(s: State, s': State, w: nat, h: Activation)
    requires w < |s.ws|
  {
    && s.ws[w].task.id in s'.store.tasks && TaskBounded(s'.store.tasks[s.ws[w].task.id], h)
    && |s'.ws| == |s.ws| && s'.ws == s.ws[w := s'.ws[w]] && !BeforeHandler(s'.ws[w])
  }

  lemma RejectedIsBounded(s: State, lost: set<TaskId>, h: Activation, step: Step)
    requires Enabled(s, step) && Owned(s.store, s.ws, lost) && Bounded(s.store, s.ws, h) && step.DoReject?
    ensures WrittenWithin(s, Apply(s, step), step.w, h)
  {
    assert Holds(s.ws[step.w]);
  }

  lemma SettledRecordIsBounded(s: State, lost: set<TaskId>, h: Activation, step: Step)
    requires Enabled(s, step) && Owned(s.store, s.ws, lost) && Bounded(s.store, s.ws, h) && RetriesLeft(s.ws)
    requires step.DoRecord?
    ensures WrittenWithin(s, Apply(s, step), step.w, h)
  {
    assert Holds(s.ws[step.w]);
    SettledIsBounded(s, s.ws[step.w], h, step.ok, step.result, step.error, step.now);
  }

  lemma SettleKeepsBounded(s: State, lost: set<TaskId>, h: Activation, step: Step)
    requires Enabled(s, step) && Owned(s.store, s.ws, lost) && Bounded(s.store, s.ws, h) && RetriesLeft(s.ws)
    requires step.DoRecord? || step.DoReject?
    ensures Bounded(Apply(s, step).store, Apply(s, step).ws, h)
  {
    var s' := Apply(s, step);
    if step.DoRecord? { SettledRecordIsBounded(s, lost, h, step); } else { RejectedIsBounded(s, lost, h, step); }
    SettleTouchesOne(s, lost, step);
    RewriteKeepsBounded(s.store, s'.store, s.ws, step.w, s'.ws[step.w], h, s.ws[step.w].task.id);
  }

  /** Only submitting and starting make a task live from outside, and both open a new activation. */
  lemma OpeningKeepsBounded(s: Store, s': Store, ws: seq<Worker>, lost: set<TaskId>, h: Activation, t: Task)
    requires Owned(s, ws, lost) && Bounded(s, ws, h)
    requires t.id in s.tasks ==> s.tasks[t.id].status != Running
    requires s'.tasks == s.tasks[t.id := t]
    ensures Bounded(s', ws, Activation(h.runs[t.id := 0], h.base[t.id := t.retries]))
  {
    forall i | 0 <= i < |ws| && BeforeHandler(ws[i]) ensures ws[i].task.id != t.id {
      assert Holds(ws[i]);
    }
  }

  lemma CallsKeepBounded(s: State, lost: set<TaskId>, h: Activation, step: Step)
    requires Enabled(s, step) && Owned(s.store, s.ws, lost) && Bounded(s.store, s.ws, h)
    requires step.DoSubmit? || step.DoStart?
    ensures Bounded(Apply(s, step).store, Apply(s, step).ws, Tracked(s, h, step))
  {
    var s' := Apply(s, step);
    if step.DoSubmit? {
      OpeningKeepsBounded(s.store, s'.store, s.ws, lost, h, step.t);
    } else if step.ok {
      OpeningKeepsBounded(s.store, s'.store, s.ws, lost, h, Reactivated(s.store.tasks[step.id]));
    }
  }

  lemma OtherCallsKeepBounded(s: State, lost: set<TaskId>, h: Activation, step: Step)
    requires Enabled(s, step) && Owned(s.store, s.ws, lost) && Bounded(s.store, s.ws, h)
    requires Mover(step).None? && !step.DoSubmit? && !step.DoStart?
    ensures Bounded(Apply(s, step).store, Apply(s, step).ws, h)
  {
    OtherCallsKeepRetries(s, step);
  }

  /** Every task was there before, with the same retry counts, and is live only if it was. */
  ghost predicate RetriesKept(s: Store, s': Store) {
    forall id :: id in s'.tasks ==>
      && id in s.tasks && s'.tasks[id].id == s.tasks[id].id
      && s'.tasks[id].retries == s.tasks[id].retries && s'.tasks[id].maxRetries == s.tasks[id].maxRetries
      && (s'.tasks[id].Live() ==> s.tasks[id].Live())
  }

  lemma StatusCallsKeepRetries(s: State, step: Step)
    requires Enabled(s, step) && (step.DoTerminateIdle? || step.DoRemove? || step.DoCancelBatch?)
    ensures RetriesKept(s.store, Apply(s, step).store) && Apply(s, step).ws == s.ws
  {
    if step.DoTerminateIdle? { TerminationKeepsRetries(s, step); }
  }

  lemma TerminationKeepsRetries(s: State, step: Step)
    requires Enabled(s, step) && step.DoTerminateIdle?
    ensures RetriesKept(s.store, Apply(s, step).store) && Apply(s, step).ws == s.ws
  {
  }

  lemma OtherCallsKeepRetries(s: State, step: Step)
    requires Enabled(s, step) && Mover(step).None? && !step.DoSubmit? && !step.DoStart?
    ensures RetriesKept(s.store, Apply(s, step).store) && Apply(s, step).ws == s.ws
  {
    if step.DoTerminateIdle? || step.DoRemove? || step.DoCancelBatch? { StatusCallsKeepRetries(s, step); }
    else if WritesFields(step) { FieldWritesKeepRecords(s, step); }
  }

  lemma FlushKeepsBounded(s: State, lost: set<TaskId>, h: Activation, w: nat)
    requires Enabled(s, DoFlushCached(w)) && Owned(s.store, s.ws, lost) && Bounded(s.store, s.ws, h)
    ensures Bounded(FlushCached(s, w).store, FlushCached(s, w).ws, h)
  {
    FlushWritesProgress(s, w);
  }

  lemma WorkerKeepsBounded(s: State, lost: set<TaskId>, h: Activation, step: Step)
    requires Enabled(s, step) && Owned(s.store, s.ws, lost) && Bounded(s.store, s.ws, h) && RetriesLeft(s.ws)
    requires Mover(step).Some?
    ensures Bounded(Apply(s, step).store, Apply(s, step).ws, Tracked(s, h, step))
  {
    if step.DoTake? { TakeKeepsBounded(s, lost, h, step); }
    else if step.DoRegister? { RegisterKeepsBounded(s, lost, h, step.w); }
    else if step.DoRecord? || step.DoReject? { SettleKeepsBounded(s, lost, h, step); }
    else if step.DoFlushCached? { FlushKeepsBounded(s, lost, h, step.w); }
    else {
      MoverShape(s, step);
      OtherMovesStayPut(s, step);
    }
  }

  lemma StepKeepsBounded(s: State, lost: set<TaskId>, h: Activation, step: Step)
    requires Enabled(s, step) && Owned(s.store, s.ws, lost) && Bounded(s.store, s.ws, h) && RetriesLeft(s.ws)
    ensures Bounded(Apply(s, step).store, Apply(s, step).ws, Tracked(s, h, step))
  {
    if Mover(step).Some? { WorkerKeepsBounded(s, lost, h, step); }
    else if step.DoSubmit? || step.DoStart? { CallsKeepBounded(s, lost, h, step); }
    else { OtherCallsKeepBounded(s, lost, h, step); }
  }

  lemma OtherMovesStayPut(s: State, step: Step)
    requires Enabled(s, step) && Mover(step).Some? && !TouchesTask(step) && !step.DoRegister?
    ensures var s' := Apply(s, step);
            var w := Mover(step).value;
            && s'.store == s.store && w < |s.ws| == |s'.ws|
            && (BeforeHandler(s'.ws[w]) ==> BeforeHandler(s.ws[w]) && s'.ws[w].task == s.ws[w].task)
  {
    if OnlyMoves(step) { MovesChangeOneWorker(s, step); }
  }

  function TrackedAfter(s: State, h: Activation, steps: seq<Step>): Activation
    requires CanRun(s, steps)
    decreases |steps|
  {
    if steps == [] then h else TrackedAfter(Apply(s, steps[0]), Tracked(s, h, steps[0]), steps[1..])
  }

  lemma {:induction false} BoundedInRuns(s: State, lost: set<TaskId>, h: Activation, steps: seq<Step>)
    requires CanRun(s, steps) && Owned(s.store, s.ws, lost) && Bounded(s.store, s.ws, h) && RetriesLeft(s.ws)
    ensures Bounded(After(s, steps).store, After(s, steps).ws, TrackedAfter(s, h, steps))
    decreases |steps|
  {
    if steps != [] {
      StepKeepsBounded(s, lost, h, steps[0]);
      StepKeepsOwned(s, lost, steps[0]);
      StepKeepsRetriesLeft(s, steps[0]);
      BoundedInRuns(Apply(s, steps[0]), Lost(s, lost, steps[0]), Tracked(s, h, steps[0]), steps[1..]);
    }
  }

  /** The activation that `h` describes ran its handler at most max(0, maxRetries - base) + 1 times. */
  predicate RunsBounded(s: Store, h: Activation, id: TaskId) {
    id in s.tasks ==> At(h.runs, id) <= Max(0, s.tasks[id].maxRetries - At(h.base, id)) + 1
  }

  /** In every run, stopping the pool included, an activation that began with `base` retries runs its handler
      at most max(0, maxRetries - base) + 1 times. */
  lemma HandlerRunsAreBounded(cfg: Config, workers: nat, steps: seq<Step>, id: TaskId)
    requires CanRun(Init(cfg, workers), steps)
    ensures RunsBounded(After(Init(cfg, workers), steps).store,
                        TrackedAfter(Init(cfg, workers), Activation(map[], map[]), steps), id)
  {
    var s := Init(cfg, workers);
    InitIsOwned(cfg, workers);
    BoundedInRuns(s, {}, Activation(map[], map[]), steps);
    OwnershipIsExclusive(s, {}, steps);
    BoundHolds(After(s, steps), TrackedAfter(s, Activation(map[], map[]), steps), id);
  }

  lemma BoundHolds(e: State, h: Activation, id: TaskId)
    requires Bounded(e.store, e.ws, h) && StoreSane(e.store)
    ensures RunsBounded(e.store, h, id)
  {
    if id in e.store.tasks { assert TaskBounded(e.store.tasks[id], h); }
  }

  // ---------- the workers come to rest ----------

  function Budget(t: Task): nat {
    if t.retries < t.maxRetries then t.maxRetries - t.retries else 0
  }

  /** Steps a worker still has ahead of it in its current round. */
  function Ahead(x: Worker): nat {
    match x.pc
    case Idle => 0
    case Holding => 14
    case Admitted => 13
    case Gauged => 12
    case Executing => 11
    case Returned => 10
    case Judged => 9
    case Cached => 8
    case Flushed => 7
    case Recorded => 6
    case Counted => if x.fire then 5 else 4
    case Unlisted => 3
    case Ungauged => 2
  }

  function WorkerWeight(x: Worker): nat {
    Ahead(x) + if Holds(x) then 16 * Budget(x.task) else 0
  }

  function WorkersWeight(ws: seq<Worker>): nat {
    if ws == [] then 0 else WorkersWeight(ws[..|ws| - 1]) + WorkerWeight(ws[|ws| - 1])
  }

  lemma {:induction false} WorkersWeightUpdate(ws: seq<Worker>, w: nat, x: Worker)
    requires w < |ws|
    ensures WorkersWeight(ws[w := x]) + WorkerWeight(ws[w]) == WorkersWeight(ws) + WorkerWeight(x)
  {
    var n := |ws| - 1;
    if w == n {
      assert ws[w := x][..n] == ws[..n];
    } else {
      assert ws[w := x][..n] == ws[..n][w := x];
      WorkersWeightUpdate(ws[..n], w, x);
    }
  }

  function TaskWeight(t: Task): nat {
    16 * (Budget(t) + 1)
  }

  ghost function QueueWeight(tasks: map<TaskId, Task>, q: set<TaskId>): nat
    requires q <= tasks.Keys
  {
    if q == {} then 0 else
      var id :| id in q;
      TaskWeight(tasks[id]) + QueueWeight(tasks, q - {id})
  }

  lemma {:induction false} QueueWeightWithout(tasks: map<TaskId, Task>, q: set<TaskId>, id: TaskId)
    requires q <= tasks.Keys && id in q
    ensures QueueWeight(tasks, q) == TaskWeight(tasks[id]) + QueueWeight(tasks, q - {id})
    decreases |q|
  {
    var x :| x in q && QueueWeight(tasks, q) == TaskWeight(tasks[x]) + QueueWeight(tasks, q - {x});
    if x != id {
      QueueWeightWithout(tasks, q - {x}, id);
      QueueWeightWithout(tasks, q - {id}, x);
      assert q - {x} - {id} == q - {id} - {x};
    }
  }

  lemma {:induction false} QueueWeightFrame(a: map<TaskId, Task>, b: map<TaskId, Task>, q: set<TaskId>)
    requires q <= a.Keys && q <= b.Keys
    requires forall id :: id in q ==> TaskWeight(a[id]) == TaskWeight(b[id])
    ensures QueueWeight(a, q) == QueueWeight(b, q)
    decreases |q|
  {
    if q != {} {
      var x :| x in q && QueueWeight(a, q) == TaskWeight(a[x]) + QueueWeight(a, q - {x});
      QueueWeightFrame(a, b, q - {x});
      QueueWeightWithout(b, q, x);
    }
  }

  ghost function Measure(s: State): nat
    requires s.store.queue <= s.store.tasks.Keys
  {
    QueueWeight(s.store.tasks, s.store.queue) + WorkersWeight(s.ws)
  }

  lemma TakeDescends(s: State, lost: set<TaskId>, step: Step)
    requires Enabled(s, step) && Owned(s.store, s.ws, lost) && step.DoTake?
    requires Apply(s, step).store.queue <= Apply(s, step).store.tasks.Keys
    ensures Measure(Apply(s, step)) < Measure(s)
  {
    var s' := Apply(s, step);
    var id := step.id;
    QueueWeightWithout(s.store.tasks, s.store.queue, id);
    QueueWeightFrame(s.store.tasks, s'.store.tasks, s.store.queue - {id});
    WorkersWeightUpdate(s.ws, step.w, s'.ws[step.w]);
  }

  /** Writing a task that is not queued leaves the queue's weight; queueing it adds the task's. */
  lemma WriteWeight(s: Store, s': Store, id: TaskId)
    requires s.queue <= s.tasks.Keys && s'.tasks.Keys == s.tasks.Keys && id in s.tasks && id !in s.queue
    requires forall y :: y in s.tasks && y != id ==> s'.tasks[y] == s.tasks[y]
    requires s'.queue == s.queue || s'.queue == s.queue + {id}
    ensures QueueWeight(s'.tasks, s'.queue)
         == QueueWeight(s.tasks, s.queue) + if id in s'.queue then TaskWeight(s'.tasks[id]) else 0
  {
    QueueWeightFrame(s.tasks, s'.tasks, s.queue);
    if s'.queue != s.queue {
      QueueWeightWithout(s'.tasks, s'.queue, id);
      assert s'.queue - {id} == s.queue;
    }
  }

  /** A retry queues one unit of budget less than its worker held. */
  lemma SettleLightens(s: State, step: Step)
    requires Enabled(s, step) && RetriesLeft(s.ws) && (step.DoRecord? || step.DoReject?)
    requires s.ws[step.w].task.id in s.store.tasks && s.ws[step.w].task.id !in s.store.queue
    ensures var s', x := Apply(s, step), s.ws[step.w];
            && |s'.ws| == |s.ws| && s'.ws == s.ws[step.w := s'.ws[step.w]] && x.task.id in s'.store.tasks
            && WorkerWeight(s'.ws[step.w]) + (if x.task.id in s'.store.queue
               then TaskWeight(s'.store.tasks[x.task.id]) else 0)
               < WorkerWeight(x)
  {
  }

  lemma SettleDescends(s: State, lost: set<TaskId>, step: Step)
    requires Enabled(s, step) && Owned(s.store, s.ws, lost) && RetriesLeft(s.ws) && (step.DoRecord? || step.DoReject?)
    requires Apply(s, step).store.queue <= Apply(s, step).store.tasks.Keys
    ensures Measure(Apply(s, step)) < Measure(s)
  {
    var s' := Apply(s, step);
    var x := s.ws[step.w];
    assert Holds(x) && x.task.id !in s.store.queue;
    if step.DoRecord? { SettleWrites(s, x, step.ok, step.result, step.error, step.now); }
    WriteWeight(s.store, s'.store, x.task.id);
    SettleLightens(s, step);
    WorkersWeightUpdate(s.ws, step.w, s'.ws[step.w]);
  }

  lemma MoveDescends(s: State, step: Step)
    requires Enabled(s, step) && WorkerStep(step) && s.store.queue <= s.store.tasks.Keys && !TouchesTask(step)
    ensures Apply(s, step).store == s.store && Measure(Apply(s, step)) < Measure(s)
  {
    var s' := Apply(s, step);
    var w := Mover(step).value;
    MoverShape(s, step);
    MoveLightens(s, step);
    WorkersWeightUpdate(s.ws, w, s'.ws[w]);
  }

  lemma MoveLightens(s: State, step: Step)
    requires Enabled(s, step) && WorkerStep(step) && !TouchesTask(step)
    ensures var w := Mover(step).value;
            w < |s.ws| == |Apply(s, step).ws| && WorkerWeight(Apply(s, step).ws[w]) < WorkerWeight(s.ws[w])
            && Apply(s, step).store == s.store
  {
    if step.DoAdmit? || step.DoEnterGauge? || step.DoLeaveGauge? || step.DoRelease? || step.DoAbandon? {
      GatesLighten(s, step);
    }
  }

  lemma GatesLighten(s: State, step: Step)
    requires Enabled(s, step)
    requires step.DoAdmit? || step.DoEnterGauge? || step.DoLeaveGauge? || step.DoRelease? || step.DoAbandon?
    ensures var w := Mover(step).value;
            w < |s.ws| == |Apply(s, step).ws| && WorkerWeight(Apply(s, step).ws[w]) < WorkerWeight(s.ws[w])
            && Apply(s, step).store == s.store
  {
  }

  lemma FlushDescends(s: State, lost: set<TaskId>, w: nat)
    requires Enabled(s, DoFlushCached(w)) && Owned(s.store, s.ws, lost) && s.store.queue <= s.store.tasks.Keys
    requires FlushCached(s, w).store.queue <= FlushCached(s, w).store.tasks.Keys
    ensures Measure(FlushCached(s, w)) < Measure(s)
  {
    var s' := FlushCached(s, w);
    FlushWritesProgress(s, w);
    QueueWeightFrame(s.store.tasks, s'.store.tasks, s.store.queue);
    WorkersWeightUpdate(s.ws, w, s'.ws[w]);
  }

  lemma WorkerStepDescends(s: State, lost: set<TaskId>, step: Step)
    requires Enabled(s, step) && Owned(s.store, s.ws, lost) && RetriesLeft(s.ws) && WorkerStep(step)
    requires s.store.queue <= s.store.tasks.Keys && Apply(s, step).store.queue <= Apply(s, step).store.tasks.Keys
    ensures Measure(Apply(s, step)) < Measure(s)
  {
    if step.DoTake? { TakeDescends(s, lost, step); }
    else if step.DoRecord? || step.DoReject? { SettleDescends(s, lost, step); }
    else if step.DoFlushCached? { FlushDescends(s, lost, step.w); }
    else { MoveDescends(s, step); }
  }

  /** With no API calls, the workers can take at most Measure(s) more steps: retries end, so every run of
      worker steps does. */
  lemma {:induction false} WorkersComeToRest(s: State, lost: set<TaskId>, steps: seq<Step>)
    requires CanRun(s, steps) && Owned(s.store, s.ws, lost) && RetriesLeft(s.ws)
    requires forall k :: 0 <= k < |steps| ==> WorkerStep(steps[k])
    ensures s.store.queue <= s.store.tasks.Keys && |steps| <= Measure(s)
    decreases |steps|
  {
    if steps != [] {
      var s' := Apply(s, steps[0]);
      StepKeepsOwned(s, lost, steps[0]);
      StepKeepsRetriesLeft(s, steps[0]);
      WorkersComeToRest(s', Lost(s, lost, steps[0]), steps[1..]);
      WorkerStepDescends(s, lost, steps[0]);
    }
  }

  lemma IdleWorkersOnlyTake(s: State, step: Step)
    requires Enabled(s, step) && WorkerStep(step) && forall w :: 0 <= w < |s.ws| ==> s.ws[w].pc == Idle
    ensures step.DoTake?
  {
  }

  /** The workers rest exactly when all are idle and no queued task is due at any time. */
  lemma RestIsExactly(s: State)
    requires Metered(s) && |s.ws| > 0 && (forall k :: k in s.cfg.limits ==> s.cfg.limits[k] > 0)
    ensures !SomeWorkerStep(s)
       <==> (forall w :: 0 <= w < |s.ws| ==> s.ws[w].pc == Idle) && (forall id, now :: !Claimable(s.store, id, now))
  {
    if !SomeWorkerStep(s) {
      forall w | 0 <= w < |s.ws| ensures s.ws[w].pc == Idle {
        if s.ws[w].pc != Idle { NoWorkerDeadlock(s, w); }
      }
      forall id, now ensures !Claimable(s.store, id, now) {
        assert s.ws[0].pc == Idle;
        assert WorkerStep(DoTake(0, id, now)) && (Claimable(s.store, id, now) ==> Enabled(s, DoTake(0, id, now)));
      }
    } else if forall w :: 0 <= w < |s.ws| ==> s.ws[w].pc == Idle {
      var step: Step :| WorkerStep(step) && Enabled(s, step);
      IdleWorkersOnlyTake(s, step);
      assert Claimable(s.store, step.id, step.now);
    }
  }

  /** Stopping the pool changes nothing about which claims a worker in Dequeue can make. */
  lemma ShutdownStopsNoClaim(s: State, w: nat, id: TaskId, now: Time)
    ensures Enabled(Shutdown(s), DoTake(w, id, now)) <==> Enabled(s, DoTake(w, id, now))
    ensures Enabled(s, DoTake(w, id, now)) ==> Take(Shutdown(s), w, id, now) == Shutdown(Take(s, w, id, now))
  {
  }

  /** The calls that give the task up. */
  predicate Drops(s: State, step: Step, id: TaskId) {
    match step
    case DoRemove(x) => x == id
    case DoTerminateIdle(x, _, _) => x == id
    case DoCancelBatch(b) => id in s.store.tasks && s.store.tasks[id].batch == b
    case _ => false
  }

  ghost predicate DropsNowhere(s: State, steps: seq<Step>, id: TaskId)
    requires CanRun(s, steps)
    decreases |steps|
  {
    steps == [] || (!Drops(s, steps[0], id) && DropsNowhere(Apply(s, steps[0]), steps[1..], id))
  }

  // ---------- records that no worker will ever see ----------

  /** Stored as Pending but in no queue. */
  predicate Stranded(s: State, id: TaskId) {
    id in s.store.tasks && s.store.tasks[id].status == Pending && id !in s.store.queue
  }

  /** A submit strands its record exactly when its Enqueue is refused after the Save, unless the task was
      scheduled and so is saved as Delayed. */
  lemma SubmitStrandsExactly(s: State, t: Task, ok: bool)
    requires Submittable(s, t) && StoreSane(s.store)
    ensures Stranded(Submit(s, t, ok), t.id) <==> !ok && t.scheduledAt.None?
  {
  }

  /** CancelBatch strands exactly the queued Pending tasks outside the batch. */
  lemma CancelBatchStrandsExactly(s: State, b: BatchId, id: TaskId)
    requires StoreSane(s.store) && !Stranded(s, id)
    ensures Stranded(CancelBatch(s, b), id)
       <==> id in s.store.queue && s.store.tasks[id].status == Pending && s.store.tasks[id].batch != b
  {
  }

  lemma QueueingLeavesStranded(s: State, lost: set<TaskId>, step: Step, id: TaskId)
    requires Enabled(s, step) && Owned(s.store, s.ws, lost) && Stranded(s, id) && (step.DoSubmit? || step.DoStart?)
    ensures Stranded(Apply(s, step), id)
  {}

  lemma DroppingLeavesStranded(s: State, step: Step, id: TaskId)
    requires Enabled(s, step) && Stranded(s, id) && !Drops(s, step, id)
    requires step.DoRemove? || step.DoTerminateIdle? || step.DoCancelBatch?
    ensures Stranded(Apply(s, step), id)
  {}

  lemma CallsLeaveStranded(s: State, lost: set<TaskId>, step: Step, id: TaskId)
    requires Enabled(s, step) && Owned(s.store, s.ws, lost) && Stranded(s, id) && !Drops(s, step, id)
    requires Mover(step).None?
    ensures Stranded(Apply(s, step), id)
  {
    if step.DoSubmit? || step.DoStart? {
      QueueingLeavesStranded(s, lost, step, id);
    } else if step.DoRemove? || step.DoTerminateIdle? || step.DoCancelBatch? {
      DroppingLeavesStranded(s, step, id);
    } else if WritesFields(step) {
      FieldWritesKeepRecords(s, step);
      RecordsLeaveStranded(s, Apply(s, step), id);
    }
  }

  lemma RecordsLeaveStranded(s: State, s': State, id: TaskId)
    requires Stranded(s, id) && SameRecords(s.store, s'.store)
    ensures Stranded(s', id)
  {
  }

  lemma WorkersLeaveStranded(s: State, lost: set<TaskId>, step: Step, id: TaskId)
    requires Enabled(s, step) && Owned(s.store, s.ws, lost) && Stranded(s, id) && Mover(step).Some?
    ensures Stranded(Apply(s, step), id)
  {
    if step.DoRecord? {
      assert Holds(s.ws[step.w]);
      SettleWrites(s, s.ws[step.w], step.ok, step.result, step.error, step.now);
    } else if step.DoReject? {
      assert Holds(s.ws[step.w]);
    } else if step.DoFlushCached? {
      FlushWritesProgress(s, step.w);
    } else if !step.DoTake? {
      MoveLightens(s, step);
    }
  }

  /** A stranded task is never claimed: Start refuses it because it is Pending, and in every run it stays
      stranded until it is removed, terminated or cancelled with its batch. */
  lemma {:induction false} StrandedIsNeverClaimed(s: State, lost: set<TaskId>, steps: seq<Step>, id: TaskId)
    requires CanRun(s, steps) && Owned(s.store, s.ws, lost) && Stranded(s, id) && DropsNowhere(s, steps, id)
    ensures Stranded(After(s, steps), id)
    ensures forall k :: 0 <= k < |steps| ==> !(steps[k].DoTake? && steps[k].id == id)
    decreases |steps|
  {
    if steps != [] {
      var s' := Apply(s, steps[0]);
      if Mover(steps[0]).Some? { WorkersLeaveStranded(s, lost, steps[0], id); }
      else { CallsLeaveStranded(s, lost, steps[0], id); }
      StepKeepsOwned(s, lost, steps[0]);
      StrandedIsNeverClaimed(s', Lost(s, lost, steps[0]), steps[1..], id);
      forall k | 1 <= k < |steps| ensures !(steps[k].DoTake? && steps[k].id == id) {
        assert steps[k] == steps[1..][k - 1];
      }
    }
  }
}
