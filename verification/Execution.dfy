/** One execution of a task with nobody else stepping in (pool/engine.go, executeTask), as the composition of the
    steps of module `Engine`, and what it leaves behind. */
module Execution {
  import opened Tasks
  import opened StoreSpec
  import opened Engine

  /** What an undisturbed execution leaves of its task: unknown types fail; a recorded intent wins over
      whatever the handler returned; a failure is retried while retries are left and the queue accepts. */
  ghost predicate Outcome(t: Task, t': Task, known: bool, intent: Option<TaskStatus>, failed: bool, accepts: bool,
                          result: Blob)
  {
    if !known then t'.status == Failed && t'.retries == t.retries
    else if intent.Some? then
      t'.status == (if intent.value == Paused then Paused else Cancelled) && t'.retries == t.retries
          && t'.result == t.result
    else if !failed then t'.status == Completed && t'.retries == t.retries && t'.result == result
    else if t.retries < t.maxRetries && accepts then t'.status == Pending && t'.retries == t.retries + 1
    else t'.status == Failed && t'.retries == t.retries
  }

  lemma SettleGivesOutcome(s: State, x: Worker, intent: Option<TaskStatus>, ok: bool, result: Blob, error: Blob,
                           now: Time)
    requires x.task.id in s.store.tasks && x.task.retries == s.store.tasks[x.task.id].retries
    requires x.task.maxRetries == s.store.tasks[x.task.id].maxRetries
    requires x.verdict == if intent.Some? then Intervene(intent.value) else if !x.failed then Complete
                          else if x.task.retries < x.task.maxRetries then Retry else Fail
    ensures var s' := Settle(s, x, ok, result, error, now);
            x.task.id in s'.tasks
            && Outcome(s.store.tasks[x.task.id], s'.tasks[x.task.id], true, intent, x.failed, ok, result)
  {
  }

  // ---------- one execution, undisturbed ----------

  /** Semaphore, gauge and registration. */
  function Begun(s: State, w: nat): (r: State)
    requires WorkerAt(s, w, Holding) && HasSlot(s, w)
    ensures WorkerAt(r, w, Executing) && r.ws[w].task == s.ws[w].task && r.store == s.store
  {
    Register(EnterGauge(Admit(s, w), w), w)
  }

  predicate ReadyToLeave(s: State, w: nat) {
    WorkerAt(s, w, Recorded) || (WorkerAt(s, w, Counted) && !s.ws[w].fire)
  }

  /** A pause has read the progress cache and written what it found. */
  function Prepared(s: State, w: nat): (r: State)
    requires WorkerAt(s, w, Judged)
    ensures ReadyToWrite(r, w)
  {
    if s.ws[w].verdict == Intervene(Paused) then FlushCached(ReadCache(s, w), w) else s
  }

  /** From the handler to the final write. */
  function Concluded(s: State, w: nat, failed: bool, ok: bool, result: Blob, error: Blob, now: Time): (r: State)
    requires WorkerAt(s, w, Executing)
    ensures ReadyToLeave(r, w)
  {
    if !Known(s, w) then Reject(s, w, error, now)
    else Record(Prepared(Judge(Return(s, w, failed), w), w), w, ok, result, error, now)
  }

  /** Batch count and, if it was the last one, the callback. */
  function Announced(s: State, w: nat): (r: State)
    requires ReadyToLeave(s, w)
    ensures WorkerAt(r, w, Counted) && !r.ws[w].fire
  {
    if s.ws[w].pc == Recorded then
      var c := CountBatch(s, w);
      if c.ws[w].fire then Fire(c, w) else c
    else s
  }

  function Undone(s: State, w: nat): State
    requires WorkerAt(s, w, Counted) && !s.ws[w].fire
  {
    Release(LeaveGauge(Unlist(s, w), w), w)
  }

  function Executed(s: State, w: nat, failed: bool, ok: bool, result: Blob, error: Blob, now: Time): State
    requires WorkerAt(s, w, Holding) && HasSlot(s, w)
  {
    Undone(Announced(Concluded(Begun(s, w), w, failed, ok, result, error, now), w), w)
  }

  function IntentFor(s: State, id: TaskId): Option<TaskStatus> {
    if id in s.ctl.signals then Some(s.ctl.signals[id]) else None
  }

  /** A failure with retries left that nobody stopped. */
  predicate Retries(s: State, x: Worker, failed: bool) {
    x.task.kind in s.cfg.handlers && x.task.id !in s.ctl.signals && failed && x.task.retries < x.task.maxRetries
  }

  lemma BegunAtOnce(s: State, w: nat)
    requires WorkerAt(s, w, Holding) && HasSlot(s, w)
    ensures var x, k := s.ws[w], s.ws[w].task.kind;
            Begun(s, w) == s.(
              ws := s.ws[w := x.(pc := Executing, token := s.ctl.next)],
              ctl := s.ctl.(registry := s.ctl.registry[x.task.id := s.ctl.next], next := s.ctl.next + 1),
              res := Resources(if k in s.cfg.limits then s.res.sem[k := At(s.res.sem, k) + 1] else s.res.sem,
                                 s.res.gauge[k := At(s.res.gauge, k) + 1]))
  {
  }

  lemma EnterAtOnce(s: State, w: nat)
    requires WorkerAt(s, w, Holding) && HasSlot(s, w)
    ensures var k := s.ws[w].task.kind;
            EnterGauge(Admit(s, w), w) == s.(
              ws := s.ws[w := s.ws[w].(pc := Gauged)],
              res := Resources(if k in s.cfg.limits then s.res.sem[k := At(s.res.sem, k) + 1] else s.res.sem,
                               s.res.gauge[k := At(s.res.gauge, k) + 1]))
  {
  }

  lemma ExitAtOnce(s: State, w: nat)
    requires WorkerAt(s, w, Unlisted)
    ensures var k := s.ws[w].task.kind;
            Release(LeaveGauge(s, w), w) == s.(
              ws := s.ws[w := s.ws[w].(pc := Idle)],
              res := Resources(if k in s.cfg.limits then s.res.sem[k := At(s.res.sem, k) - 1] else s.res.sem,
                               s.res.gauge[k := At(s.res.gauge, k) - 1]))
  {
  }

  lemma UndoneAtOnce(s: State, w: nat)
    requires WorkerAt(s, w, Counted) && !s.ws[w].fire
    ensures var x, k := s.ws[w], s.ws[w].task.kind;
            Undone(s, w) == s.(
              ws := s.ws[w := x.(pc := Idle)],
              ctl := s.ctl.(registry := s.ctl.registry - {x.task.id}),
              res := Resources(if k in s.cfg.limits then s.res.sem[k := At(s.res.sem, k) - 1] else s.res.sem,
                                 s.res.gauge[k := At(s.res.gauge, k) - 1]))
  {
  }

  lemma BegunEffect(s: State, w: nat)
    requires WorkerAt(s, w, Holding) && HasSlot(s, w)
    ensures var r, k, id := Begun(s, w), s.ws[w].task.kind, s.ws[w].task.id;
            && r.ctl.signals == s.ctl.signals && r.ctl.registry == s.ctl.registry[id := s.ctl.next]
            && (forall y :: At(r.res.gauge, y) == At(s.res.gauge, y) + (if y == k then 1 else 0))
            && (forall y :: At(r.res.sem, y) == At(s.res.sem, y) + (if y == k && k in s.cfg.limits then 1 else 0))
            && r.cfg == s.cfg && r.batches == s.batches && r.fired == s.fired && r.stats == s.stats
            && r.progress == s.progress && r.ws == s.ws[w := r.ws[w]]
  {
    BegunAtOnce(s, w);
  }

  lemma JudgedAtOnce(s: State, w: nat, failed: bool)
    requires WorkerAt(s, w, Executing) && Known(s, w)
    ensures var x := s.ws[w].(failed := failed);
            Judge(Return(s, w, failed), w)
            == s.(ws := s.ws[w := x.(pc := Judged, verdict := VerdictFor(s, x))],
                  ctl := s.ctl.(signals := s.ctl.signals - {x.task.id}))
  {
    var r := Return(s, w, failed);
    assert VerdictFor(r, r.ws[w]) == VerdictFor(s, s.ws[w].(failed := failed));
  }

  /** Preparing touches nothing but the worker and, for a pause, the stored progress. */
  lemma PreparedEffect(s: State, w: nat)
    requires WorkerAt(s, w, Judged)
    ensures var r, x, id := Prepared(s, w), s.ws[w], s.ws[w].task.id;
            && r == s.(ws := s.ws[w := r.ws[w]], store := r.store)
            && r.ws[w].task == x.task && r.ws[w].verdict == x.verdict && r.ws[w].failed == x.failed
            && r.store == if x.verdict == Intervene(Paused) && id in s.progress
               then WithProgress(s.store, id, s.progress[id])
                          else s.store
  {
  }

  lemma ConcludedOutcome(s: State, w: nat, failed: bool, ok: bool, result: Blob, error: Blob, now: Time)
    requires WorkerAt(s, w, Executing) && s.ws[w].task.id in s.store.tasks
    requires var x := s.ws[w].task;
             x.retries == s.store.tasks[x.id].retries && x.maxRetries == s.store.tasks[x.id].maxRetries
    ensures var r, id := Concluded(s, w, failed, ok, result, error, now), s.ws[w].task.id;
            id in r.store.tasks
            && Outcome(s.store.tasks[id], r.store.tasks[id], Known(s, w), IntentFor(s, id), failed, ok, result)
  {
    var x := s.ws[w];
    if Known(s, w) {
      var j := Judge(Return(s, w, failed), w);
      var p := Prepared(j, w);
      JudgedAtOnce(s, w, failed);
      PreparedEffect(j, w);
      SettleGivesOutcome(p, p.ws[w], IntentFor(s, x.task.id), ok, result, error, now);
    }
  }

  lemma ConcludedEffect(s: State, w: nat, failed: bool, ok: bool, result: Blob, error: Blob, now: Time)
    requires WorkerAt(s, w, Executing)
    ensures var r, x := Concluded(s, w, failed, ok, result, error, now), s.ws[w];
            && r.ctl == s.ctl.(signals := if Known(s, w) then s.ctl.signals - {x.task.id} else s.ctl.signals)
            && (r.ws[w].pc == Counted <==> Retries(s, x, failed))
            && r.ws == s.ws[w := r.ws[w]] && r.ws[w].task == x.task
            && r.cfg == s.cfg && r.res == s.res && r.batches == s.batches && r.fired == s.fired
  {
    if Known(s, w) {
      JudgedAtOnce(s, w, failed);
      PreparedEffect(Judge(Return(s, w, failed), w), w);
    }
  }

  lemma SettleFrame(s: State, x: Worker, ok: bool, result: Blob, error: Blob, now: Time, y: TaskId)
    requires y in s.store.tasks && y != x.task.id
    ensures var r := Settle(s, x, ok, result, error, now); y in r.tasks && r.tasks[y] == s.store.tasks[y]
  {
  }

  /** The final write touches no other task's record. */
  lemma ConcludedFrame(s: State, w: nat, failed: bool, ok: bool, result: Blob, error: Blob, now: Time, y: TaskId)
    requires WorkerAt(s, w, Executing) && y in s.store.tasks && y != s.ws[w].task.id
    ensures var r := Concluded(s, w, failed, ok, result, error, now);
            y in r.store.tasks && r.store.tasks[y] == s.store.tasks[y]
  {
    if Known(s, w) {
      var j := Judge(Return(s, w, failed), w);
      var p := Prepared(j, w);
      JudgedAtOnce(s, w, failed);
      PreparedEffect(j, w);
      SettleFrame(p, p.ws[w], ok, result, error, now, y);
    }
  }

  /** Only the batch counters, the callbacks and the worker change. */
  lemma AnnouncedEffect(s: State, w: nat)
    requires ReadyToLeave(s, w)
    ensures var r, t := Announced(s, w), s.ws[w].task;
            var counts := s.ws[w].pc == Recorded && CountsBatch(s, t);
            && r == s.(ws := s.ws[w := r.ws[w]], batches := r.batches, fired := r.fired) && r.ws[w].task == t
            && r.batches == (if counts
                             then s.batches[t.batch := s.batches[t.batch].(done := s.batches[t.batch].done + 1)]
                             else s.batches)
            && r.fired == (if counts && r.batches[t.batch].total <= r.batches[t.batch].done
                              && BatchResults(s.store, t.batch) != map[]
                           then s.fired + [Firing(t.batch, BatchResults(s.store, t.batch))] else s.fired)
  {
  }

  /** Only the registry, the meters and the worker change. */
  lemma UndoneEffect(s: State, w: nat)
    requires WorkerAt(s, w, Counted) && !s.ws[w].fire
    ensures var r, t := Undone(s, w), s.ws[w].task;
            && r == s.(ws := s.ws[w := r.ws[w]], ctl := s.ctl.(registry := s.ctl.registry - {t.id}), res := r.res)
            && (forall y :: At(r.res.gauge, y) == At(s.res.gauge, y) - (if y == t.kind then 1 else 0))
            && (forall y :: At(r.res.sem, y) == At(s.res.sem, y) - (if y == t.kind && y in s.cfg.limits then 1 else 0))
  {
    UndoneAtOnce(s, w);
  }

  /** What an undisturbed executeTask leaves of the store: the task as `Outcome` says, every other task as it was. */
  lemma ExecutionOutcome(s: State, w: nat, failed: bool, ok: bool, result: Blob, error: Blob, now: Time)
    requires WorkerAt(s, w, Holding) && HasSlot(s, w) && s.ws[w].task.id in s.store.tasks
    requires var x := s.ws[w].task;
             x.retries == s.store.tasks[x.id].retries && x.maxRetries == s.store.tasks[x.id].maxRetries
    ensures var r, id := Executed(s, w, failed, ok, result, error, now), s.ws[w].task.id;
            && id in r.store.tasks
            && Outcome(s.store.tasks[id], r.store.tasks[id], Known(s, w), IntentFor(s, id), failed, ok, result)
            && (forall y :: y in s.store.tasks && y != id ==>
                  y in r.store.tasks && r.store.tasks[y] == s.store.tasks[y])
  {
    var a := Begun(s, w);
    var c := Concluded(a, w, failed, ok, result, error, now);
    BegunAtOnce(s, w);
    ConcludedOutcome(a, w, failed, ok, result, error, now);
    forall y | y in s.store.tasks && y != s.ws[w].task.id ensures y in c.store.tasks
        && c.store.tasks[y] == s.store.tasks[y] {
      ConcludedFrame(a, w, failed, ok, result, error, now, y);
    }
    AnnouncedEffect(c, w);
    UndoneAtOnce(Announced(c, w), w);
  }

  /** Semaphores and gauges are as before. */
  predicate SameMeters(s: State, r: State, k: Kind) {
    At(r.res.sem, k) == At(s.res.sem, k) && At(r.res.gauge, k) == At(s.res.gauge, k)
  }

  /** From `s` to `r` the meters of type `k` moved by `d` if that is the type `own` of the task. */
  predicate MetersMoved(s: State, r: State, own: Kind, k: Kind, d: int) {
    && r.cfg == s.cfg && At(r.res.gauge, k) == At(s.res.gauge, k) + (if k == own then d else 0)
    && At(r.res.sem, k) == At(s.res.sem, k) + (if k == own && k in s.cfg.limits then d else 0)
  }

  lemma BegunMeters(s: State, w: nat, k: Kind)
    requires WorkerAt(s, w, Holding) && HasSlot(s, w)
    ensures MetersMoved(s, Begun(s, w), s.ws[w].task.kind, k, 1)
  {
    BegunEffect(s, w);
  }

  lemma LeavingMeters(s: State, w: nat, k: Kind)
    requires ReadyToLeave(s, w)
    ensures MetersMoved(s, Undone(Announced(s, w), w), s.ws[w].task.kind, k, -1)
  {
    LeavingRestores(s, w);
  }

  lemma MetersReturn(s: State, a: State, c: State, r: State, own: Kind, k: Kind)
    requires MetersMoved(s, a, own, k, 1) && c.res == a.res && c.cfg == a.cfg && MetersMoved(c, r, own, k, -1)
    ensures SameMeters(s, r, k)
  {
  }

  lemma ExecutionRestoresMeters(s: State, w: nat, failed: bool, ok: bool, result: Blob, error: Blob, now: Time, k: Kind)
    requires WorkerAt(s, w, Holding) && HasSlot(s, w)
    ensures SameMeters(s, Executed(s, w, failed, ok, result, error, now), k)
  {
    var a := Begun(s, w);
    var c := Concluded(a, w, failed, ok, result, error, now);
    BegunMeters(s, w, k);
    ConcludedEffect(a, w, failed, ok, result, error, now);
    LeavingMeters(c, w, k);
    MetersReturn(s, a, c, Undone(Announced(c, w), w), s.ws[w].task.kind, k);
  }

  /** The registry is as before but for the id's entry, which is gone; the signal is consumed by a known type. */
  predicate Cleared(s: State, r: State, id: TaskId, known: bool) {
    && r.ctl.registry == s.ctl.registry - {id}
    && r.ctl.signals == (if known then s.ctl.signals - {id} else s.ctl.signals)
  }

  lemma ExecutionClears(s: State, w: nat, failed: bool, ok: bool, result: Blob, error: Blob, now: Time)
    requires WorkerAt(s, w, Holding) && HasSlot(s, w)
    ensures Cleared(s, Executed(s, w, failed, ok, result, error, now), s.ws[w].task.id, Known(s, w))
  {
    var a := Begun(s, w);
    BegunEffect(s, w);
    ConcludedEffect(a, w, failed, ok, result, error, now);
    LeavingRestores(Concluded(a, w, failed, ok, result, error, now), w);
  }

  lemma LeavingRestores(s: State, w: nat)
    requires ReadyToLeave(s, w)
    ensures var r, t := Undone(Announced(s, w), w), s.ws[w].task;
            && (forall y :: At(r.res.gauge, y) == At(s.res.gauge, y) - (if y == t.kind then 1 else 0))
            && (forall y :: At(r.res.sem, y) == At(s.res.sem, y) - (if y == t.kind && y in s.cfg.limits then 1 else 0))
            && r.ctl == s.ctl.(registry := s.ctl.registry - {t.id})
  {
    AnnouncedEffect(s, w);
    UndoneEffect(Announced(s, w), w);
  }

  /** From `s` to `r` batch `b` was counted if `counts`, and called back with the statuses stored in `r` exactly when
      that was the last count missing. */
  ghost predicate BatchCounted(s: State, r: State, b: BatchId, counts: bool) {
    if counts && b in s.batches then
      && r.batches == s.batches[b := s.batches[b].(done := s.batches[b].done + 1)]
      && r.fired == (if r.batches[b].total <= r.batches[b].done && BatchResults(r.store, b) != map[]
                     then s.fired + [Firing(b, BatchResults(r.store, b))] else s.fired)
    else r.batches == s.batches && r.fired == s.fired
  }

  lemma LeavingCounts(s: State, w: nat)
    requires ReadyToLeave(s, w)
    ensures BatchCounted(s, Undone(Announced(s, w), w), s.ws[w].task.batch,
                         s.ws[w].pc == Recorded && CountsBatch(s, s.ws[w].task))
  {
    AnnouncedEffect(s, w);
    UndoneAtOnce(Announced(s, w), w);
  }

  /** It counts its batch unless the task is retried, and calls back with the stored statuses exactly when that was
      the last count missing. */
  lemma ExecutionCountsBatch(s: State, w: nat, failed: bool, ok: bool, result: Blob, error: Blob, now: Time)
    requires WorkerAt(s, w, Holding) && HasSlot(s, w)
    ensures BatchCounted(s, Executed(s, w, failed, ok, result, error, now), s.ws[w].task.batch,
                         !Retries(s, s.ws[w], failed) && CountsBatch(s, s.ws[w].task))
  {
    var a := Begun(s, w);
    BegunEffect(s, w);
    ConcludedEffect(a, w, failed, ok, result, error, now);
    LeavingCounts(Concluded(a, w, failed, ok, result, error, now), w);
  }
}
