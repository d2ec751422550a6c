/** The pool itself (pool/engine.go) over the memory backend: the shared maps and counters, updated in place.

    Each method performs one or more steps of the machine in module `Engine`, with the heap-backed queue of
    `MemoryBackend` in the role of the simple store. */
module TaskPool {
  import opened Tasks
  import opened StoreSpec
  import E = Engine
  import Q = MemoryQueue
  import Heaps
  import Records
  import opened MemoryBackend
  import opened Execution

  class TaskPool {
    const cfg: E.Config
    const backend: MemoryBackend
    var workers: seq<E.Worker>
    var runningCancels: map<TaskId, nat>
    var stopSignals: map<TaskId, TaskStatus>
    var issued: set<nat>
    var cancelled: set<nat>
    var nextToken: nat
    var semaphores: map<Kind, int>
    var gauges: map<Kind, int>
    var batchCounters: map<BatchId, E.BatchCounter>
    var fired: seq<E.Firing>
    var progress: map<TaskId, (int, int)>
    var stats: E.Stats
    /** Submits between their two halves. */
    ghost var untracked: multiset<BatchId>
    /** Progress values cached and not yet written. */
    ghost var inflight: multiset<E.Write>
    var stopped: bool

    /** The heap and its index agree, ids are not reused, and tasks are stored under their own ids. */
    ghost predicate Valid()
      reads backend, backend.items
    {
      Q.Indexed(backend.State()) && forall id :: id in backend.tasks ==> backend.tasks[id].id == id
    }

    predicate At(w: nat, pc: E.Pc)
      reads this`workers
    {
      w < |workers| && workers[w].pc == pc
    }

    /** The type's semaphore would not block. */
    predicate SlotFree(w: nat)
      reads this`workers, this`semaphores
    {
      w < |workers| && (workers[w].task.kind in cfg.limits
                        ==> E.At(semaphores, workers[w].task.kind) < cfg.limits[workers[w].task.kind])
    }

    ghost function State(): E.State
      reads this, backend, backend.items
    {
      E.State(cfg, Q.Abs(backend.State()), workers,
              E.Control(runningCancels, stopSignals, issued, cancelled, nextToken),
              E.Resources(semaphores, gauges), batchCounters, fired, progress, stats,
              untracked, inflight, stopped)
    }

    constructor (cfg: E.Config, maxQueueSize: int, maxWorkers: nat)
      ensures Valid() && State() == E.Init(cfg, maxWorkers) && fresh(backend) && fresh(backend.items)
    {
      this.cfg := cfg;
      backend := new MemoryBackend(maxQueueSize);
      workers := seq(maxWorkers, _ => E.IDLE);
      runningCancels, stopSignals, issued, cancelled, nextToken := map[], map[], {}, {}, 0;
      semaphores, gauges, batchCounters, fired, progress := map[], map[], map[], [], map[];
      stats := E.Stats(0, 0, 0);
      untracked, inflight := multiset{}, multiset{};
      stopped := false;
    }

    // ---------- the queue, seen as the simple store ----------

    ghost function Store(): Store
      reads backend, backend.items
    {
      Q.Abs(backend.State())
    }

    method SaveNew(t: Task)
      requires Valid() && t.id !in backend.tasks && t.id !in Heaps.IdBag(backend.items.h)
      modifies backend
      ensures Valid() && backend.items == old(backend.items) && Store() == Saved(old(Store()), t)
      ensures Q.Accepts(backend.State()) == old(Q.Accepts(backend.State())) && backend.closed == old(backend.closed)
    {
      ghost var m := backend.State();
      backend.Save(t);
      Q.StepRefinesStore(m, Q.OpSave(t));
    }

    method Enqueue(t: Task) returns (r: Result<()>)
      requires Valid() && t.id in backend.tasks
      modifies backend, backend.items
      ensures Valid() && backend.items == old(backend.items)
      ensures r.Ok? <==> old(Q.Accepts(backend.State()))
      ensures r.Err? ==> r.error == if old(backend.closed) then QueueClosed else QueueFull
      ensures Store() == if r.Ok? then Enqueued(old(Store()), t) else old(Store())
    {
      ghost var m := backend.State();
      r := backend.Enqueue(t);
      Q.StepRefinesStore(m, Q.OpEnqueue(t));
    }

    method SetStatus(id: TaskId, status: TaskStatus, error: Blob, now: Time)
      requires Valid()
      modifies backend
      ensures Valid() && backend.items == old(backend.items)
      ensures Store() == WithStatus(old(Store()), id, status, error, now)
      ensures Q.Accepts(backend.State()) == old(Q.Accepts(backend.State()))
    {
      ghost var m := backend.State();
      var _ := backend.UpdateStatus(id, status, error, now);
      Q.StepRefinesStore(m, Q.OpUpdateStatus(id, status, error, now));
    }

    method SetResult(id: TaskId, result: Blob)
      requires Valid()
      modifies backend
      ensures Valid() && backend.items == old(backend.items) && Store() == WithResult(old(Store()), id, result)
    {
      ghost var m := backend.State();
      backend.UpdateResult(id, result);
      Q.StepRefinesStore(m, Q.OpUpdateResult(id, result));
    }

    method FlushProgress(id: TaskId, p: (int, int))
      requires Valid()
      modifies backend
      ensures Valid() && backend.items == old(backend.items) && Store() == WithProgress(old(Store()), id, p)
      ensures Q.Accepts(backend.State()) == old(Q.Accepts(backend.State()))
    {
      ghost var m := backend.State();
      backend.UpdateProgress(id, p.0, p.1);
      Q.StepRefinesStore(m, Q.OpUpdateProgress(id, p));
    }

    method Withdraw(id: TaskId) returns (removed: bool)
      requires Valid()
      modifies backend, backend.items
      ensures Valid() && backend.items == old(backend.items)
      ensures removed <==> Removable(old(Store()), id)
      ensures Store() == if removed then Withdrawn(old(Store()), id) else old(Store())
    {
      ghost var m := backend.State();
      removed := backend.Remove(id);
      Q.StepRefinesStore(m, Q.OpRemove(id));
    }

    // ---------- API calls ----------

    /** Save, then Enqueue, then the counters: both halves of Submit. A refused Enqueue leaves the record. */
    method Submit(t: Task) returns (r: Result<()>)
      requires Valid() && E.Submittable(State(), t)
      requires t.id !in Heaps.IdBag(backend.items.h)
      modifies this, backend, backend.items
      ensures Valid() && backend.items == old(backend.items)
      ensures r.Ok? <==> old(Q.Accepts(backend.State()))
      ensures r.Ok? ==> State() == E.Track(E.Submit(old(State()), t, true), t.batch)
      ensures r.Err? ==> State() == E.Submit(old(State()), t, false)
      ensures r.Err? ==> r.error == if old(backend.closed) then QueueClosed else QueueFull
    {
      r := SaveAndEnqueue(t);
      if r.Err? {
        return;
      }
      TrackSubmit(t.batch);
    }

    /** First half: from here on a worker may run the task. */
    method SaveAndEnqueue(t: Task) returns (r: Result<()>)
      requires Valid() && E.Submittable(State(), t) && t.id !in Heaps.IdBag(backend.items.h)
      modifies this`untracked, backend, backend.items
      ensures Valid() && backend.items == old(backend.items)
      ensures r.Ok? <==> old(Q.Accepts(backend.State()))
      ensures r.Err? ==> r.error == if old(backend.closed) then QueueClosed else QueueFull
      ensures State() == E.Submit(old(State()), t, r.Ok?)
    {
      SaveNew(t);
      r := Enqueue(t);
      if r.Ok? {
        untracked := untracked + multiset{t.batch};
      }
    }

    /** Second half: the submission count and the batch total. */
    method TrackSubmit(b: BatchId)
      requires b in untracked
      modifies this`stats, this`batchCounters, this`untracked
      ensures State() == E.Track(old(State()), b)
    {
      TrackBatch(b);
      stats := stats.(submitted := stats.submitted + 1);
      untracked := untracked - multiset{b};
    }

    method TrackBatch(b: BatchId)
      modifies this`batchCounters
      ensures batchCounters == E.TrackBatch(cfg, old(batchCounters), b)
    {
      if b == NO_BATCH || !cfg.batchCallback {
        return;
      }
      if b !in batchCounters {
        batchCounters := batchCounters[b := E.BatchCounter(1, 0)];
      } else {
        var c := batchCounters[b];
        batchCounters := batchCounters[b := c.(total := c.total + 1)];
      }
    }

    /** The locked half of StopTask (`desired` Paused) and of Terminate on a registered task (Cancelled). */
    method RecordIntent(id: TaskId, desired: TaskStatus) returns (r: Result<nat>)
      requires desired == Paused || desired == Cancelled
      modifies this`stopSignals, this`issued
      ensures r.Ok? <==> id in runningCancels
      ensures r.Ok? ==> r.value == runningCancels[id] && State() == E.Signal(old(State()), id, desired)
      ensures r.Err? ==> r.error == TaskNotRunning && State() == old(State())
    {
      if id !in runningCancels {
        return Err(TaskNotRunning);
      }
      stopSignals := stopSignals[id := desired];
      issued := issued + {runningCancels[id]};
      return Ok(runningCancels[id]);
    }

    /** Refused exactly when the task has no entry: the intent is recorded before the cancel function is called. */
    method StopTask(id: TaskId) returns (r: Result<()>)
      modifies this`stopSignals, this`issued, this`cancelled
      ensures r.Ok? <==> id in runningCancels
      ensures r.Ok? ==> State() == E.Deliver(E.Signal(old(State()), id, Paused), runningCancels[id])
      ensures r.Err? ==> r.error == TaskNotRunning && State() == old(State())
    {
      var token := RecordIntent(id, Paused);
      if token.Err? {
        return Err(token.error);
      }
      cancelled := cancelled + {token.value};
      return Ok(());
    }

    /** Succeeds exactly on registered, waiting, paused and failed tasks. */
    method Terminate(id: TaskId, error: Blob, now: Time) returns (r: Result<()>)
      requires Valid()
      modifies this, backend, backend.items
      ensures Valid() && backend.items == old(backend.items)
      ensures r.Ok? <==> id in old(runningCancels) || E.TerminableIdle(old(State()), id)
      ensures id in old(runningCancels) ==>
                State() == E.Deliver(E.Signal(old(State()), id, Cancelled), old(runningCancels)[id])
      ensures E.TerminableIdle(old(State()), id) ==> State() == E.TerminateIdle(old(State()), id, error, now)
      ensures r.Err? ==> State() == old(State())
      ensures r.Err? ==> r.error == if id in backend.tasks then NotTerminable(backend.tasks[id].status)
                else TaskNotFound
    {
      var token := RecordIntent(id, Cancelled);
      if token.Ok? {
        cancelled := cancelled + {token.value};
        return Ok(());
      }
      r := TerminateIdle(id, error, now);
    }

    /** Terminate on a task that is not registered: a waiting task is removed from the queue, a paused or
        failed one is marked, any other is refused. */
    method TerminateIdle(id: TaskId, error: Blob, now: Time) returns (r: Result<()>)
      requires Valid() && id !in runningCancels
      modifies this, backend, backend.items
      ensures Valid() && backend.items == old(backend.items)
      ensures r.Ok? <==> E.TerminableIdle(old(State()), id)
      ensures r.Ok? ==> State() == E.TerminateIdle(old(State()), id, error, now)
      ensures r.Err? ==> State() == old(State())
      ensures r.Err? ==> r.error == if id in backend.tasks then NotTerminable(backend.tasks[id].status)
                else TaskNotFound
    {
      var removed := Withdraw(id);
      if removed {
        return Ok(());
      }
      var got := backend.Get(id);
      if got.Err? {
        return Err(got.error);
      }
      var status := got.value.status;
      if status == Paused || status == Failed {
        SetStatus(id, Cancelled, error, now);
        return Ok(());
      } else {
        return Err(NotTerminable(status));
      }
    }

    /** Start and Continue. */
    method Start(id: TaskId) returns (r: Result<()>)
      requires Valid()
      modifies this, backend, backend.items
      ensures Valid() && backend.items == old(backend.items)
      ensures r.Ok? <==> E.Startable(old(State()), id) && old(Q.Accepts(backend.State()))
      ensures E.Startable(old(State()), id) ==> State() == E.Start(old(State()), id, r.Ok?)
      ensures r.Ok? ==> id in backend.tasks && Records.Restarts(old(backend.tasks)[id], backend.tasks[id])
      ensures !E.Startable(old(State()), id) ==> State() == old(State())
      ensures !E.Startable(old(State()), id) ==> r == Err(if id in backend.tasks
                then TaskNotStartable else TaskNotFound)
    {
      var got := backend.Get(id);
      if got.Err? {
        return Err(got.error);
      }
      var task := got.value;
      if !(task.status == Delayed || task.status == Paused || task.status == Failed || task.status == Cancelled) {
        return Err(TaskNotStartable);
      }
      if task.status != Paused {
        task := task.(retries := 0);
      }
      task := task.(status := Pending, scheduledAt := None, startedAt := None, doneAt := None, error := EMPTY);
      r := Enqueue(task);
    }

    method Remove(id: TaskId) returns (r: Result<()>)
      requires Valid()
      modifies this, backend, backend.items
      ensures Valid() && backend.items == old(backend.items)
      ensures r.Ok? <==> E.Erasable(old(State()), id)
      ensures r.Ok? ==> State() == E.Remove(old(State()), id)
      ensures r.Err? ==> State() == old(State())
      ensures r.Err? ==> r.error == if id in backend.tasks then TaskNotRemovable else TaskNotFound
    {
      var got := backend.Get(id);
      if got.Err? {
        return Err(got.error);
      }
      if got.value.status == Running {
        return Err(TaskNotRemovable);
      }
      ghost var m0 := backend.State();
      backend.Delete(id);
      Q.StepRefinesStore(m0, Q.OpDelete(id));
      return Ok(());
    }

    method CancelBatch(b: BatchId) returns (n: nat)
      requires Valid()
      modifies backend
      ensures Valid() && fresh(backend.items)
      ensures State() == E.CancelBatch(old(State()), b)
      ensures n == |WaitingIn(old(backend.tasks), b)|
    {
      ghost var m0 := backend.State();
      n := backend.CancelBatch(b);
      Q.StepRefinesStore(m0, Q.OpCancelBatch(b));
    }

    /** The first thing Stop does; it then waits for the workers and closes the backend. */
    method Shutdown()
      modifies this`stopped
      ensures State() == E.Shutdown(old(State()))
    {
      stopped := true;
    }

    // ---------- a worker's round ----------

    /** One dequeue round: a claim of a due task, or nothing to do. */
    method Take(w: nat, now: Time) returns (taken: Option<TaskId>)
      requires Valid() && At(w, E.Idle)
      modifies this`workers, backend, backend.items
      ensures Valid() && backend.items == old(backend.items)
      ensures taken.Some? ==> Claimable(old(State()).store, taken.value, now)
                              && State() == E.Take(old(State()), w, taken.value, now)
      ensures taken.None? ==> State() == old(State()) && forall id :: !Claimable(old(State()).store, id, now)
    {
      ghost var m0 := backend.State();
      var poll := backend.Dequeue(now);
      Q.DequeueRefines(m0, now);
      if poll.Got? {
        workers := workers[w := workers[w].(pc := E.Holding, task := poll.task)];
        return Some(poll.task.id);
      }
      return None;
    }

    method RejectUnknown(w: nat, error: Blob, now: Time)
      requires Valid() && At(w, E.Executing) && workers[w].task.kind !in cfg.handlers
      modifies this`workers, this`stats, backend
      ensures Valid() && backend.items == old(backend.items)
      ensures State() == E.Reject(old(State()), w, error, now)
    {
      SetStatus(workers[w].task.id, Failed, error, now);
      stats := stats.(failed := stats.failed + 1);
      workers := workers[w := workers[w].(pc := E.Recorded, verdict := E.Fail)];
    }

    /** The intervention check consumes the signal; only then are retry, failure and success considered. */
    method CheckIntervention(w: nat)
      requires At(w, E.Returned)
      modifies this`workers, this`stopSignals
      ensures State() == E.Judge(old(State()), w)
    {
      var x := workers[w];
      var id := x.task.id;
      var verdict: E.Verdict;
      if id in stopSignals {
        verdict := E.Intervene(stopSignals[id]);
      } else if x.failed {
        verdict := if x.task.retries < x.task.maxRetries then E.Retry else E.Fail;
      } else {
        verdict := E.Complete;
      }
      stopSignals := stopSignals - {id};
      workers := workers[w := x.(pc := E.Judged, verdict := verdict)];
    }

    /** A pause's first region: the progress cache. */
    method ReadCache(w: nat)
      requires At(w, E.Judged) && workers[w].verdict == E.Intervene(Paused)
      modifies this`workers
      ensures State() == E.ReadCache(old(State()), w)
    {
      var x := workers[w];
      workers := workers[w := x.(pc := E.Cached, cached := if x.task.id in progress
          then Some(progress[x.task.id]) else None)];
    }

    /** Its second: what was found is written. */
    method FlushCached(w: nat)
      requires Valid() && At(w, E.Cached)
      modifies this`workers, backend
      ensures Valid() && backend.items == old(backend.items)
      ensures Q.Accepts(backend.State()) == old(Q.Accepts(backend.State()))
      ensures State() == E.FlushCached(old(State()), w)
    {
      var x := workers[w];
      if x.cached.Some? {
        FlushProgress(x.task.id, x.cached.value);
      }
      workers := workers[w := x.(pc := E.Flushed)];
    }

    /** A pause flushes the cached progress before its final write; nothing else needs preparing. */
    method Prepare(w: nat)
      requires Valid() && At(w, E.Judged)
      modifies this`workers, backend
      ensures Valid() && backend.items == old(backend.items)
      ensures Q.Accepts(backend.State()) == old(Q.Accepts(backend.State()))
      ensures State() == Prepared(old(State()), w)
    {
      if workers[w].verdict == E.Intervene(Paused) {
        ReadCache(w);
        FlushCached(w);
      }
    }

    method Retry(t: Task, error: Blob, now: Time) returns (ok: bool)
      requires Valid() && t.id in backend.tasks
      modifies backend, backend.items
      ensures Valid() && backend.items == old(backend.items)
      ensures ok == old(Q.Accepts(backend.State()))
      ensures Store() == if ok then Enqueued(old(Store()), E.RetryCopy(t, now))
                         else WithStatus(old(Store()), t.id, Failed, error, now)
    {
      var copy := t.(retries := t.retries + 1, status := Pending, error := EMPTY, startedAt := None,
          doneAt := Some(now));
      var r := Enqueue(copy);
      ok := r.Ok?;
      if !ok {
        SetStatus(t.id, Failed, error, now);
      }
    }

    /** The store part of the final write: a retry enqueues the worker's copy and falls back to Failed, success stores
        the result before the status. */
    method Settle(w: nat, result: Blob, error: Blob, now: Time) returns (ok: bool)
      requires Valid() && w < |workers| && workers[w].task.id in backend.tasks
      modifies backend, backend.items
      ensures Valid() && backend.items == old(backend.items)
      ensures ok == old(Q.Accepts(backend.State()))
      ensures Store() == E.Settle(old(State()), workers[w], ok, result, error, now)
    {
      var x := workers[w];
      var id := x.task.id;
      ok := !backend.closed && |backend.items.h| < backend.cap;
      match x.verdict
      case Intervene(desired) =>
        if desired == Paused {
          SetStatus(id, Paused, EMPTY, now);
        } else {
          SetStatus(id, Cancelled, error, now);
        }
      case Retry => ok := Retry(x.task, error, now);
      case Fail => SetStatus(id, Failed, error, now);
      case Complete =>
        SetResult(id, result);
        SetStatus(id, Completed, EMPTY, now);
    }

    /** The final write and its counters; the retry path skips the batch count. */
    method Record(w: nat, result: Blob, error: Blob, now: Time) returns (ok: bool)
      requires Valid() && w < |workers| && workers[w].task.id in backend.tasks
      requires At(w, E.Flushed) || (At(w, E.Judged) && workers[w].verdict != E.Intervene(Paused))
      modifies this`workers, this`stats, backend, backend.items
      ensures Valid() && backend.items == old(backend.items)
      ensures ok == old(Q.Accepts(backend.State()))
      ensures State() == E.Record(old(State()), w, ok, result, error, now)
    {
      ok := Settle(w, result, error, now);
      Tally(w, ok);
    }

    /** The counters of the outcome; the worker moves on. */
    method Tally(w: nat, ok: bool)
      requires w < |workers|
      modifies this`workers, this`stats
      ensures stats == E.Tally(old(stats), old(workers)[w].verdict, ok)
      ensures var x := old(workers)[w];
              workers == old(workers)[w := x.(pc := if x.verdict.Retry? then E.Counted else E.Recorded, fire := false)]
    {
      var x := workers[w];
      if x.verdict.Fail? || (x.verdict.Retry? && !ok) {
        stats := stats.(failed := stats.failed + 1);
      } else if x.verdict.Complete? {
        stats := stats.(completed := stats.completed + 1);
      }
      workers := workers[w := x.(pc := if x.verdict.Retry? then E.Counted else E.Recorded, fire := false)];
    }

    /** checkBatchCompletion, the locked part: count and decide whether to call back. */
    method CountBatch(w: nat)
      requires At(w, E.Recorded)
      modifies this`workers, this`batchCounters
      ensures State() == E.CountBatch(old(State()), w)
    {
      var x := workers[w];
      var b := x.task.batch;
      if !cfg.batchCallback || b == NO_BATCH || b !in batchCounters {
        workers := workers[w := x.(pc := E.Counted, fire := false)];
        return;
      }
      var c := batchCounters[b];
      c := c.(done := c.done + 1);
      batchCounters := batchCounters[b := c];
      workers := workers[w := x.(pc := E.Counted, fire := c.total - c.done <= 0)];
    }

    /** checkBatchCompletion, the rest: list the batch and call back. */
    method FireBatch(w: nat)
      requires At(w, E.Counted) && workers[w].fire
      modifies this`workers, this`fired
      ensures State() == E.Fire(old(State()), w)
    {
      var b := workers[w].task.batch;
      var results := map id | id in backend.tasks && backend.tasks[id].batch == b :: backend.tasks[id].status;
      workers := workers[w := workers[w].(fire := false)];
      if results == map[] {
        return;
      }
      fired := fired + [E.Firing(b, results)];
    }

    /** SetProgress, for any id: both halves. `flush` is the throttle's decision. */
    method Report(id: TaskId, p: (int, int), flush: bool)
      requires Valid()
      modifies this`progress, this`inflight, backend
      ensures Valid() && backend.items == old(backend.items)
      ensures State() == if flush then E.Land(E.Report(old(State()), id, p, true), id, p)
                         else E.Report(old(State()), id, p, false)
    {
      CacheReport(id, p, flush);
      if flush {
        Land(id, p);
      }
    }

    /** Its locked half: the cache. */
    method CacheReport(id: TaskId, p: (int, int), flush: bool)
      modifies this`progress, this`inflight
      ensures State() == E.Report(old(State()), id, p, flush)
    {
      progress := progress[id := p];
      if flush {
        inflight := inflight + multiset{E.Write(id, p)};
      }
    }

    /** Its second half: the value reaches the backend. */
    method Land(id: TaskId, p: (int, int))
      requires Valid() && E.Write(id, p) in inflight
      modifies this`inflight, backend
      ensures Valid() && backend.items == old(backend.items)
      ensures State() == E.Land(old(State()), id, p)
    {
      FlushProgress(id, p);
      inflight := inflight - multiset{E.Write(id, p)};
    }

    method SaveTaskMetadata(id: TaskId, d: Blob)
      requires Valid()
      modifies backend
      ensures Valid() && backend.items == old(backend.items)
      ensures State() == E.SaveMetadata(old(State()), id, d)
    {
      ghost var m := backend.State();
      backend.UpdateMetadata(id, d);
      Q.StepRefinesStore(m, Q.OpUpdateMetadata(id, d));
    }

    // ---------- executeTask as a whole ----------

    /** The semaphore of the task's type, if it has one, and the gauge. */
    method Enter(w: nat)
      requires At(w, E.Holding) && SlotFree(w)
      modifies this`workers, this`semaphores, this`gauges
      ensures State() == E.EnterGauge(E.Admit(old(State()), w), w)
    {
      EnterAtOnce(State(), w);
      var k := workers[w].task.kind;
      if k in cfg.limits {
        semaphores := semaphores[k := E.At(semaphores, k) + 1];
      }
      gauges := gauges[k := E.At(gauges, k) + 1];
      workers := workers[w := workers[w].(pc := E.Gauged)];
    }

    /** Entering, and the registration of a new cancel function. */
    method Begin(w: nat)
      requires At(w, E.Holding) && SlotFree(w)
      modifies this`workers, this`semaphores, this`gauges, this`runningCancels, this`nextToken
      ensures State() == Begun(old(State()), w)
    {
      Enter(w);
      Register(w);
    }

    /** The registration of a new cancel function. */
    method Register(w: nat)
      requires At(w, E.Gauged)
      modifies this`workers, this`runningCancels, this`nextToken
      ensures State() == E.Register(old(State()), w)
    {
      runningCancels := runningCancels[workers[w].task.id := nextToken];
      workers := workers[w := workers[w].(pc := E.Executing, token := nextToken)];
      nextToken := nextToken + 1;
    }

    /** The handler has returned: check, preparation and final write. */
    method Finish(w: nat, failed: bool, result: Blob, error: Blob, now: Time) returns (ok: bool)
      requires Valid() && At(w, E.Returned) && workers[w].task.id in backend.tasks && workers[w].failed == failed
      modifies this`workers, this`stopSignals, this`stats, backend, backend.items
      ensures Valid() && backend.items == old(backend.items)
      ensures ok == old(Q.Accepts(backend.State()))
      ensures State() == E.Record(Prepared(E.Judge(old(State()), w), w), w, ok, result, error, now)
    {
      CheckIntervention(w);
      Prepare(w);
      ok := Record(w, result, error, now);
    }

    /** Unknown types fail; otherwise the handler returns, the intervention check is made and the outcome written. */
    method Conclude(w: nat, failed: bool, result: Blob, error: Blob, now: Time) returns (ok: bool)
      requires Valid() && At(w, E.Executing) && workers[w].task.id in backend.tasks
      modifies this`workers, this`stopSignals, this`stats, backend, backend.items
      ensures Valid() && backend.items == old(backend.items)
      ensures ok == old(Q.Accepts(backend.State()))
      ensures State() == Concluded(old(State()), w, failed, ok, result, error, now)
    {
      if workers[w].task.kind !in cfg.handlers {
        ok := !backend.closed && |backend.items.h| < backend.cap;
        RejectUnknown(w, error, now);
      } else {
        workers := workers[w := workers[w].(pc := E.Returned, failed := failed)];
        ok := Finish(w, failed, result, error, now);
      }
    }

    method Announce(w: nat)
      requires At(w, E.Recorded) || (At(w, E.Counted) && !workers[w].fire)
      modifies this`workers, this`batchCounters, this`fired
      ensures State() == Announced(old(State()), w)
    {
      if workers[w].pc == E.Recorded {
        CountBatch(w);
        if workers[w].fire {
          FireBatch(w);
        }
      }
    }

    /** The gauge and the semaphore, in reverse order of `Enter`. */
    method Exit(w: nat)
      requires At(w, E.Unlisted)
      modifies this`workers, this`semaphores, this`gauges
      ensures State() == E.Release(E.LeaveGauge(old(State()), w), w)
    {
      ExitAtOnce(State(), w);
      var k := workers[w].task.kind;
      gauges := gauges[k := E.At(gauges, k) - 1];
      workers := workers[w := workers[w].(pc := E.Idle)];
      if k in cfg.limits {
        semaphores := semaphores[k := E.At(semaphores, k) - 1];
      }
    }

    /** The deferred unregistration, whatever entry the id has. */
    method Unregister(w: nat)
      requires At(w, E.Counted) && !workers[w].fire
      modifies this`workers, this`runningCancels
      ensures State() == E.Unlist(old(State()), w)
    {
      runningCancels := runningCancels - {workers[w].task.id};
      workers := workers[w := workers[w].(pc := E.Unlisted)];
    }

    /** The deferred calls, the unregistration first. */
    method Undo(w: nat)
      requires At(w, E.Counted) && !workers[w].fire
      modifies this`workers, this`semaphores, this`gauges, this`runningCancels
      ensures State() == Undone(old(State()), w)
    {
      Unregister(w);
      Exit(w);
    }

    /** executeTask from a free slot on. */
    method RunTask(w: nat, failed: bool, result: Blob, error: Blob, now: Time) returns (ok: bool)
      requires Valid() && At(w, E.Holding) && workers[w].task.id in backend.tasks && SlotFree(w)
      modifies this, backend, backend.items
      ensures Valid() && backend.items == old(backend.items)
      ensures ok == old(Q.Accepts(backend.State()))
      ensures State() == Executed(old(State()), w, failed, ok, result, error, now)
    {
      Begin(w);
      ok := Conclude(w, failed, result, error, now);
      Leave(w);
    }

    /** The batch count with its callback, and the deferred calls. */
    method Leave(w: nat)
      requires At(w, E.Recorded) || (At(w, E.Counted) && !workers[w].fire)
      modifies this`workers, this`batchCounters, this`fired, this`semaphores, this`gauges, this`runningCancels
      ensures State() == Undone(Announced(old(State()), w), w)
    {
      Announce(w);
      Undo(w);
    }

    /** executeTask with nobody else stepping in. A worker that waits for a slot may instead give up once the pool is
        stopped, leaving its task as it is; `ExecutionOutcome` says what an execution leaves behind. */
    method ExecuteTask(w: nat, giveUp: bool, failed: bool, result: Blob, error: Blob, now: Time) returns (ok: bool)
      requires Valid() && At(w, E.Holding) && workers[w].task.id in backend.tasks
      requires if giveUp then stopped && workers[w].task.kind in cfg.limits else SlotFree(w)
      modifies this, backend, backend.items
      ensures Valid() && backend.items == old(backend.items)
      ensures ok == old(Q.Accepts(backend.State()))
      ensures State() == if giveUp then E.Abandon(old(State()), w)
                         else Executed(old(State()), w, failed, ok, result, error, now)
    {
      if giveUp {
        ok := !backend.closed && |backend.items.h| < backend.cap;
        workers := workers[w := workers[w].(pc := E.Idle)];
      } else {
        ok := RunTask(w, failed, result, error, now);
      }
    }
  }
}
