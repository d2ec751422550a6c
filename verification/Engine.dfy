/** The worker and control protocol of the pool (pool/engine.go) as a state machine.

    A state is what all goroutines share plus, for each worker, where it stands in `executeTask` and its
    locals. A step is one region of the source that runs under a lock or on locals only. StopTask and
    Terminate on a running task are two steps, recording the intent and delivering the cancellation; Submit is
    two, queueing the task and tracking it; SetProgress is two, caching the value and writing it; a pause ends in
    three, reading the cache, writing the value and setting the status; the other API calls are one step each.
    `TaskPool` performs the same steps in place. */
module Engine {
  import opened Tasks
  import opened StoreSpec

  /** `limits` holds the positive WithConcurrency limits. `batchCallback` says that the configuration
      enables the batch callback and one is registered. */
  datatype Config = Config(handlers: set<Kind>, limits: map<Kind, nat>, batchCallback: bool)

  /** Where a worker stands, in program order. */
  datatype Pc =
    | Idle          // in Dequeue
    | Holding       // dequeued, before the semaphore
    | Admitted      // past the semaphore
    | Gauged        // counted as running
    | Executing     // cancel function registered, handler running
    | Returned      // handler returned
    | Judged        // intervention check done
    | Cached        // pausing: progress cache read
    | Flushed       // pausing: cached progress written
    | Recorded      // final status written, batch not counted yet
    | Counted       // batch counted
    | Unlisted      // deferred unregistration done
    | Ungauged      // no longer counted as running

  datatype Verdict = Intervene(status: TaskStatus) | Retry | Fail | Complete

  /** `token` identifies the cancel function this execution registered; `cached` is the progress a pause found in
      the cache. */
  datatype Worker = Worker(pc: Pc, task: Task, token: nat, failed: bool, verdict: Verdict, fire: bool,
                           cached: Option<(int, int)>)

  /** `registry` is runningCancels and `signals` is stopSignals. `issued` are the cancel functions some
      StopTask or Terminate has picked up, `cancelled` those it has called. */
  datatype Control = Control(
    registry: map<TaskId, nat>,
    signals: map<TaskId, TaskStatus>,
    issued: set<nat>,
    cancelled: set<nat>,
    next: nat)

  datatype Resources = Resources(sem: map<Kind, int>, gauge: map<Kind, int>)

  datatype BatchCounter = BatchCounter(total: int, done: int)

  datatype Stats = Stats(submitted: nat, completed: nat, failed: nat)

  /** A progress value on its way from SetProgress to the backend. */
  datatype Write = Write(id: TaskId, p: (int, int))

  /** A batch callback with the statuses it reported. */
  datatype Firing = Firing(batch: BatchId, results: map<TaskId, TaskStatus>)

  /** `untracked` holds the batches of the submits that have queued their task and not yet tracked it, and `inflight`
      the progress values that have been cached and not yet written. */
  datatype State = State(
    cfg: Config,
    store: Store,
    ws: seq<Worker>,
    ctl: Control,
    res: Resources,
    batches: map<BatchId, BatchCounter>,
    fired: seq<Firing>,
    progress: map<TaskId, (int, int)>,
    stats: Stats,
    untracked: multiset<BatchId>,
    inflight: multiset<Write>,
    stopped: bool)

  function At<K>(m: map<K, int>, k: K): int {
    if k in m then m[k] else 0
  }

  // ---------- worker phases ----------

  /** Owns its task: from the claim to the final status write. */
  predicate Holds(x: Worker) {
    x.pc in {Holding, Admitted, Gauged, Executing, Returned, Judged, Cached, Flushed}
  }

  /** Its execution is registered, as far as this worker is concerned. */
  predicate Listed(x: Worker) {
    x.pc in {Executing, Returned, Judged, Cached, Flushed, Recorded, Counted}
  }

  /** Registered and not yet past the intervention check. */
  predicate Unjudged(x: Worker) {
    x.pc == Executing || x.pc == Returned
  }

  predicate HasPassed(x: Worker) {
    x.pc != Idle && x.pc != Holding
  }

  predicate InGauge(x: Worker) {
    HasPassed(x) && x.pc != Admitted && x.pc != Ungauged
  }

  function Move(s: State, w: nat, x: Worker): State
    requires w < |s.ws|
  {
    s.(ws := s.ws[w := x])
  }

  predicate WorkerAt(s: State, w: nat, pc: Pc) {
    w < |s.ws| && s.ws[w].pc == pc
  }

  // ---------- worker steps ----------

  function Take(s: State, w: nat, id: TaskId, now: Time): State
    requires WorkerAt(s, w, Idle) && Claimable(s.store, id, now)
  {
    var store := Claimed(s.store, id, now);
    Move(s, w, s.ws[w].(pc := Holding, task := store.tasks[id])).(store := store)
  }

  /** The type's semaphore has a free slot, or the type has none. */
  predicate HasSlot(s: State, w: nat) {
    w < |s.ws| && (s.ws[w].task.kind in s.cfg.limits
                   ==> At(s.res.sem, s.ws[w].task.kind) < s.cfg.limits[s.ws[w].task.kind])
  }

  function Admit(s: State, w: nat): State
    requires WorkerAt(s, w, Holding) && HasSlot(s, w)
  {
    var k := s.ws[w].task.kind;
    Move(s, w, s.ws[w].(pc := Admitted)).(
      res := if k in s.cfg.limits then s.res.(sem := s.res.sem[k := At(s.res.sem, k) + 1]) else s.res)
  }

  /** Waiting at the semaphore when the pool stops: the worker drops its task as it is. */
  function Abandon(s: State, w: nat): State
    requires WorkerAt(s, w, Holding) && s.stopped && s.ws[w].task.kind in s.cfg.limits
  {
    Move(s, w, s.ws[w].(pc := Idle))
  }

  function EnterGauge(s: State, w: nat): State
    requires WorkerAt(s, w, Admitted)
  {
    var k := s.ws[w].task.kind;
    Move(s, w, s.ws[w].(pc := Gauged)).(res := s.res.(gauge := s.res.gauge[k := At(s.res.gauge, k) + 1]))
  }

  function Register(s: State, w: nat): State
    requires WorkerAt(s, w, Gauged)
  {
    Move(s, w, s.ws[w].(pc := Executing, token := s.ctl.next)).(
      ctl := s.ctl.(registry := s.ctl.registry[s.ws[w].task.id := s.ctl.next], next := s.ctl.next + 1))
  }

  predicate Known(s: State, w: nat) {
    w < |s.ws| && s.ws[w].task.kind in s.cfg.handlers
  }

  /** The unknown-type branch fails the task without an intervention check. */
  function Reject(s: State, w: nat, error: Blob, now: Time): State
    requires WorkerAt(s, w, Executing) && !Known(s, w)
  {
    Move(s, w, s.ws[w].(pc := Recorded, verdict := Fail)).(
      store := WithStatus(s.store, s.ws[w].task.id, Failed, error, now),
      stats := s.stats.(failed := s.stats.failed + 1))
  }

  /** The handler returns; an error, a panic and a timeout all count as failed. */
  function Return(s: State, w: nat, failed: bool): State
    requires WorkerAt(s, w, Executing) && Known(s, w)
  {
    Move(s, w, s.ws[w].(pc := Returned, failed := failed))
  }

  function VerdictFor(s: State, x: Worker): Verdict {
    if x.task.id in s.ctl.signals then Intervene(s.ctl.signals[x.task.id])
    else if !x.failed then Complete
    else if x.task.retries < x.task.maxRetries then Retry
    else Fail
  }

  function Judge(s: State, w: nat): State
    requires WorkerAt(s, w, Returned)
  {
    Move(s, w, s.ws[w].(pc := Judged, verdict := VerdictFor(s, s.ws[w]))).(
      ctl := s.ctl.(signals := s.ctl.signals - {s.ws[w].task.id}))
  }

  /** A pause first reads the progress cache, then writes what it found, and sets the status last. */
  function ReadCache(s: State, w: nat): State
    requires WorkerAt(s, w, Judged) && s.ws[w].verdict == Intervene(Paused)
  {
    var id := s.ws[w].task.id;
    Move(s, w, s.ws[w].(pc := Cached, cached := if id in s.progress then Some(s.progress[id]) else None))
  }

  function FlushCached(s: State, w: nat): State
    requires WorkerAt(s, w, Cached)
  {
    var x := s.ws[w];
    Move(s, w, x.(pc := Flushed)).(
      store := if x.cached.Some? then WithProgress(s.store, x.task.id, x.cached.value) else s.store)
  }

  /** All that is left is the final write. */
  predicate ReadyToWrite(s: State, w: nat) {
    WorkerAt(s, w, Flushed) || (WorkerAt(s, w, Judged) && s.ws[w].verdict != Intervene(Paused))
  }

  /** The copy that a retry enqueues. */
  function RetryCopy(t: Task, now: Time): Task {
    t.(retries := t.retries + 1, status := Pending, error := EMPTY, startedAt := None, doneAt := Some(now))
  }

  /** The store after the final write; `ok` says whether a retry's Enqueue is accepted. */
  function Settle(s: State, x: Worker, ok: bool, result: Blob, error: Blob, now: Time): Store {
    var id := x.task.id;
    match x.verdict
    case Intervene(status) =>
      if status == Paused then WithStatus(s.store, id, Paused, EMPTY, now)
      else WithStatus(s.store, id, Cancelled, error, now)
    case Retry =>
      if ok then Enqueued(s.store, RetryCopy(x.task, now)) else WithStatus(s.store, id, Failed, error, now)
    case Fail => WithStatus(s.store, id, Failed, error, now)
    case Complete => WithStatus(WithResult(s.store, id, result), id, Completed, EMPTY, now)
  }

  function Tally(stats: Stats, verdict: Verdict, ok: bool): Stats {
    match verdict
    case Intervene(_) => stats
    case Retry => if ok then stats else stats.(failed := stats.failed + 1)
    case Fail => stats.(failed := stats.failed + 1)
    case Complete => stats.(completed := stats.completed + 1)
  }

  /** The retry branch returns without counting the batch, whether or not its Enqueue was accepted. */
  function Record(s: State, w: nat, ok: bool, result: Blob, error: Blob, now: Time): State
    requires ReadyToWrite(s, w)
  {
    var x := s.ws[w];
    Move(s, w, x.(pc := if x.verdict.Retry? then Counted else Recorded, fire := false)).(
      store := Settle(s, x, ok, result, error, now), stats := Tally(s.stats, x.verdict, ok))
  }

  predicate CountsBatch(s: State, t: Task) {
    s.cfg.batchCallback && t.batch != NO_BATCH && t.batch in s.batches
  }

  function CountBatch(s: State, w: nat): State
    requires WorkerAt(s, w, Recorded)
  {
    var x := s.ws[w];
    if CountsBatch(s, x.task) then
      var c := s.batches[x.task.batch];
      var d := c.(done := c.done + 1);
      Move(s, w, x.(pc := Counted, fire := d.total - d.done <= 0)).(batches := s.batches[x.task.batch := d])
    else Move(s, w, x.(pc := Counted, fire := false))
  }

  function BatchResults(s: Store, b: BatchId): map<TaskId, TaskStatus> {
    map id | id in s.tasks && s.tasks[id].batch == b :: s.tasks[id].status
  }

  /** Lists the batch and calls back, unless the batch has no task left. */
  function Fire(s: State, w: nat): State
    requires WorkerAt(s, w, Counted) && s.ws[w].fire
  {
    var b := s.ws[w].task.batch;
    var results := BatchResults(s.store, b);
    Move(s, w, s.ws[w].(fire := false)).(fired := if results == map[] then s.fired else s.fired + [Firing(b, results)])
  }

  /** The deferred delete removes whatever entry the id has. */
  function Unlist(s: State, w: nat): State
    requires WorkerAt(s, w, Counted) && !s.ws[w].fire
  {
    Move(s, w, s.ws[w].(pc := Unlisted)).(ctl := s.ctl.(registry := s.ctl.registry - {s.ws[w].task.id}))
  }

  function LeaveGauge(s: State, w: nat): State
    requires WorkerAt(s, w, Unlisted)
  {
    var k := s.ws[w].task.kind;
    Move(s, w, s.ws[w].(pc := Ungauged)).(res := s.res.(gauge := s.res.gauge[k := At(s.res.gauge, k) - 1]))
  }

  function Release(s: State, w: nat): State
    requires WorkerAt(s, w, Ungauged)
  {
    var k := s.ws[w].task.kind;
    Move(s, w, s.ws[w].(pc := Idle)).(
      res := if k in s.cfg.limits then s.res.(sem := s.res.sem[k := At(s.res.sem, k) - 1])
             else s.res)
  }

  // ---------- API calls ----------

  /** The locked half of SetProgress, which anybody may call for any id at any time; `flush` is the throttle's
      decision. */
  function Report(s: State, id: TaskId, p: (int, int), flush: bool): State {
    s.(progress := s.progress[id := p], inflight := if flush then s.inflight + multiset{Write(id, p)} else s.inflight)
  }

  /** The unlocked half: the value reaches the backend. */
  function Land(s: State, id: TaskId, p: (int, int)): State
    requires Write(id, p) in s.inflight
  {
    s.(store := WithProgress(s.store, id, p), inflight := s.inflight - multiset{Write(id, p)})
  }

  /** Submit with the defaults it fills in: Delayed exactly when scheduled, and no retry used up. */
  predicate Submittable(s: State, t: Task) {
    && t.id !in s.store.tasks
    && t.status == (if t.scheduledAt.Some? then Delayed else Pending)
    && t.retries == 0
  }

  function TrackBatch(cfg: Config, batches: map<BatchId, BatchCounter>, b: BatchId): map<BatchId, BatchCounter> {
    if b == NO_BATCH || !cfg.batchCallback then batches
    else if b in batches then batches[b := batches[b].(total := batches[b].total + 1)]
    else batches[b := BatchCounter(1, 0)]
  }

  /** First half of Submit. Save comes first: a refused Enqueue leaves the saved record behind. */
  function Submit(s: State, t: Task, ok: bool): State
    requires Submittable(s, t)
  {
    if ok then s.(store := Enqueued(Saved(s.store, t), t), untracked := s.untracked + multiset{t.batch})
    else s.(store := Saved(s.store, t))
  }

  /** Second half: the counters. Workers may run the task in between. */
  function Track(s: State, b: BatchId): State
    requires b in s.untracked
  {
    s.(batches := TrackBatch(s.cfg, s.batches, b), stats := s.stats.(submitted := s.stats.submitted + 1),
       untracked := s.untracked - multiset{b})
  }

  /** First half of StopTask and Terminate on a running task. */
  function Signal(s: State, id: TaskId, status: TaskStatus): State
    requires id in s.ctl.registry && (status == Paused || status == Cancelled)
  {
    s.(ctl := s.ctl.(signals := s.ctl.signals[id := status], issued := s.ctl.issued + {s.ctl.registry[id]}))
  }

  /** Second half: calling the picked-up cancel function. */
  function Deliver(s: State, token: nat): State
    requires token in s.ctl.issued
  {
    s.(ctl := s.ctl.(cancelled := s.ctl.cancelled + {token}))
  }

  /** Terminate on a task that is not registered succeeds. */
  predicate TerminableIdle(s: State, id: TaskId) {
    && id !in s.ctl.registry && id in s.store.tasks
    && s.store.tasks[id].status in {Pending, Delayed, Paused, Failed}
  }

  function TerminateIdle(s: State, id: TaskId, error: Blob, now: Time): State
    requires TerminableIdle(s, id)
  {
    s.(store := if Removable(s.store, id) then Withdrawn(s.store, id)
                else WithStatus(s.store, id, Cancelled, error, now))
  }

  predicate Startable(s: State, id: TaskId) {
    id in s.store.tasks && s.store.tasks[id].status in {Delayed, Paused, Failed, Cancelled}
  }

  /** What Start enqueues: a paused task keeps its retry count, any other starts afresh. */
  function Reactivated(t: Task): Task {
    t.(retries := if t.status == Paused then t.retries else 0, status := Pending, scheduledAt := None,
       startedAt := None, doneAt := None, error := EMPTY)
  }

  function Start(s: State, id: TaskId, ok: bool): State
    requires Startable(s, id)
  {
    if ok then s.(store := Enqueued(s.store, Reactivated(s.store.tasks[id]))) else s
  }

  predicate Erasable(s: State, id: TaskId) {
    id in s.store.tasks && s.store.tasks[id].status != Running
  }

  function Remove(s: State, id: TaskId): State
    requires Erasable(s, id)
  {
    s.(store := Deleted(s.store, id))
  }

  function CancelBatch(s: State, b: BatchId): State {
    s.(store := BatchCancelled(s.store, b))
  }

  function SaveMetadata(s: State, id: TaskId, m: Blob): State {
    s.(store := WithMetadata(s.store, id, m))
  }

  /** Stop cancels the pool context. */
  function Shutdown(s: State): State {
    s.(stopped := true)
  }

  // ---------- steps and runs ----------

  datatype Step =
    | DoTake(w: nat, id: TaskId, now: Time)
    | DoAdmit(w: nat)
    | DoAbandon(w: nat)
    | DoEnterGauge(w: nat)
    | DoRegister(w: nat)
    | DoReject(w: nat, error: Blob, now: Time)
    | DoReturn(w: nat, failed: bool)
    | DoJudge(w: nat)
    | DoReadCache(w: nat)
    | DoFlushCached(w: nat)
    | DoRecord(w: nat, ok: bool, result: Blob, error: Blob, now: Time)
    | DoCount(w: nat)
    | DoFire(w: nat)
    | DoUnlist(w: nat)
    | DoLeaveGauge(w: nat)
    | DoRelease(w: nat)
    | DoReport(id: TaskId, p: (int, int), flush: bool)
    | DoLand(id: TaskId, p: (int, int))
    | DoSubmit(t: Task, ok: bool)
    | DoTrack(b: BatchId)
    | DoSignal(id: TaskId, status: TaskStatus)
    | DoDeliver(token: nat)
    | DoTerminateIdle(id: TaskId, error: Blob, now: Time)
    | DoStart(id: TaskId, ok: bool)
    | DoRemove(id: TaskId)
    | DoCancelBatch(b: BatchId)
    | DoSaveMetadata(id: TaskId, m: Blob)
    | DoShutdown

  /** The worker a step moves. */
  function Mover(step: Step): Option<nat> {
    match step
    case DoTake(w, _, _) => Some(w)
    case DoAdmit(w) => Some(w)
    case DoAbandon(w) => Some(w)
    case DoEnterGauge(w) => Some(w)
    case DoRegister(w) => Some(w)
    case DoReject(w, _, _) => Some(w)
    case DoReturn(w, _) => Some(w)
    case DoJudge(w) => Some(w)
    case DoReadCache(w) => Some(w)
    case DoFlushCached(w) => Some(w)
    case DoRecord(w, _, _, _, _) => Some(w)
    case DoCount(w) => Some(w)
    case DoFire(w) => Some(w)
    case DoUnlist(w) => Some(w)
    case DoLeaveGauge(w) => Some(w)
    case DoRelease(w) => Some(w)
    case _ => None
  }

  predicate Enabled(s: State, step: Step) {
    match step
    case DoTake(w, id, now) => WorkerAt(s, w, Idle) && Claimable(s.store, id, now)
    case DoAdmit(w) => WorkerAt(s, w, Holding) && HasSlot(s, w)
    case DoAbandon(w) => WorkerAt(s, w, Holding) && s.stopped && s.ws[w].task.kind in s.cfg.limits
    case DoEnterGauge(w) => WorkerAt(s, w, Admitted)
    case DoRegister(w) => WorkerAt(s, w, Gauged)
    case DoReject(w, _, _) => WorkerAt(s, w, Executing) && !Known(s, w)
    case DoReturn(w, _) => WorkerAt(s, w, Executing) && Known(s, w)
    case DoJudge(w) => WorkerAt(s, w, Returned)
    case DoReadCache(w) => WorkerAt(s, w, Judged) && s.ws[w].verdict == Intervene(Paused)
    case DoFlushCached(w) => WorkerAt(s, w, Cached)
    case DoRecord(w, _, _, _, _) => ReadyToWrite(s, w)
    case DoCount(w) => WorkerAt(s, w, Recorded)
    case DoFire(w) => WorkerAt(s, w, Counted) && s.ws[w].fire
    case DoUnlist(w) => WorkerAt(s, w, Counted) && !s.ws[w].fire
    case DoLeaveGauge(w) => WorkerAt(s, w, Unlisted)
    case DoRelease(w) => WorkerAt(s, w, Ungauged)
    case DoReport(_, _, _) => true
    case DoLand(id, p) => Write(id, p) in s.inflight
    case DoSubmit(t, _) => Submittable(s, t)
    case DoTrack(b) => b in s.untracked
    case DoSignal(id, status) => id in s.ctl.registry && (status == Paused || status == Cancelled)
    case DoDeliver(token) => token in s.ctl.issued
    case DoTerminateIdle(id, _, _) => TerminableIdle(s, id)
    case DoStart(id, _) => Startable(s, id)
    case DoRemove(id) => Erasable(s, id)
    case DoCancelBatch(_) => true
    case DoSaveMetadata(_, _) => true
    case DoShutdown => true
  }

  function Apply(s: State, step: Step): State
    requires Enabled(s, step)
  {
    match step
    case DoTake(w, id, now) => Take(s, w, id, now)
    case DoAdmit(w) => Admit(s, w)
    case DoAbandon(w) => Abandon(s, w)
    case DoEnterGauge(w) => EnterGauge(s, w)
    case DoRegister(w) => Register(s, w)
    case DoReject(w, error, now) => Reject(s, w, error, now)
    case DoReturn(w, failed) => Return(s, w, failed)
    case DoJudge(w) => Judge(s, w)
    case DoReadCache(w) => ReadCache(s, w)
    case DoFlushCached(w) => FlushCached(s, w)
    case DoRecord(w, ok, result, error, now) => Record(s, w, ok, result, error, now)
    case DoCount(w) => CountBatch(s, w)
    case DoFire(w) => Fire(s, w)
    case DoUnlist(w) => Unlist(s, w)
    case DoLeaveGauge(w) => LeaveGauge(s, w)
    case DoRelease(w) => Release(s, w)
    case DoReport(id, p, flush) => Report(s, id, p, flush)
    case DoLand(id, p) => Land(s, id, p)
    case DoSubmit(t, ok) => Submit(s, t, ok)
    case DoTrack(b) => Track(s, b)
    case DoSignal(id, status) => Signal(s, id, status)
    case DoDeliver(token) => Deliver(s, token)
    case DoTerminateIdle(id, error, now) => TerminateIdle(s, id, error, now)
    case DoStart(id, ok) => Start(s, id, ok)
    case DoRemove(id) => Remove(s, id)
    case DoCancelBatch(b) => CancelBatch(s, b)
    case DoSaveMetadata(id, m) => SaveMetadata(s, id, m)
    case DoShutdown => Shutdown(s)
  }

  predicate CanRun(s: State, steps: seq<Step>)
    decreases |steps|
  {
    steps == [] || (Enabled(s, steps[0]) && CanRun(Apply(s, steps[0]), steps[1..]))
  }

  function After(s: State, steps: seq<Step>): State
    requires CanRun(s, steps)
    decreases |steps|
  {
    if steps == [] then s else After(Apply(s, steps[0]), steps[1..])
  }

  const NO_TASK := Task(0, 0, EMPTY, Pending, 0, NO_BATCH, 0, 0, None, 0, None, None, EMPTY, EMPTY, (0, 0), EMPTY)
  const IDLE := Worker(Idle, NO_TASK, 0, false, Complete, false, None)

  function Init(cfg: Config, workers: nat): State {
    State(cfg, Store(map[], {}), seq(workers, _ => IDLE), Control(map[], map[], {}, {}, 0),
          Resources(map[], map[]), map[], [], map[], Stats(0, 0, 0), multiset{}, multiset{}, false)
  }
}
