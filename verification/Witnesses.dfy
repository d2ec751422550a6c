/** Runs from the start in which the conditions proved elsewhere fail: each bad outcome is reached. */
module Witnesses {
  import opened Tasks
  import opened StoreSpec
  import opened Engine
  import opened Ownership
  import opened Execution
  import Q = MemoryQueue
  import H = Heaps
  import Signals
  import Activity
  import Pauses
  import W = Wakeup
  import Rows
  import SqlClaims
  import SqlBackends
  import Batches

  // ---------- the memory queue ----------

  const PLAIN := NO_TASK.(id := 1, batch := 1)

  lemma OneEnqueued(t: Task)
    ensures var m := Q.Enqueue(Q.Empty(2), t);
            m == Q.Empty(2).(tasks := map[t.id := t], items := [Q.ItemOf(t)], gen := 1, inQueue := {t.id})
  {
  }

  /** Stored as Pending without an item. */
  ghost predicate Missing(m: Q.MemState, id: TaskId) {
    id in m.tasks && m.tasks[id].status == Pending && id !in H.IdBag(m.items)
  }

  /** A task is accepted; cancelling another, even empty, batch loses it. */
  lemma CancelBatchLoses()
    ensures Q.Accepts(Q.Empty(2)) && Missing(Q.CancelBatch(Q.Enqueue(Q.Empty(2), PLAIN), 7), 1)
  {
    PlainIsStored();
    OtherBatchCancelled(Q.Enqueue(Q.Empty(2), PLAIN));
  }

  lemma PlainIsStored()
    ensures Q.Enqueue(Q.Empty(2), PLAIN).tasks == map[1 := PLAIN]
  {
  }

  lemma OtherBatchCancelled(m: Q.MemState)
    requires m.tasks == map[1 := PLAIN]
    ensures Missing(Q.CancelBatch(m, 7), 1)
  {
    Q.CancelBatchContents(m, 7, 1);
  }

  lemma OneDequeued(t: Task)
    requires t.Live() && t.scheduledAt.None?
    ensures var m := Q.Dequeue(Q.Enqueue(Q.Empty(2), t), 0);
            m.items == [] && m.tasks == map[t.id := t.(status := Running, startedAt := Some(0))]
  {
    OneEnqueued(t);
    var m := Q.Enqueue(Q.Empty(2), t);
    assert Q.Ready(m.tasks, m.items[0], 0);
    assert Q.FirstReady(m, 0, 0) == 0;
  }

  /** A task is accepted and claimed; recovering it leaves it Pending and unqueued. */
  lemma RecoverLoses()
    ensures Q.Accepts(Q.Empty(2)) && Missing(Q.Recover(Q.Dequeue(Q.Enqueue(Q.Empty(2), PLAIN), 0)), 1)
  {
    OneDequeued(PLAIN);
    Reopened(Q.Dequeue(Q.Enqueue(Q.Empty(2), PLAIN), 0));
  }

  lemma Reopened(m: Q.MemState)
    requires m.items == [] && m.tasks == map[1 := PLAIN.(status := Running, startedAt := Some(0))]
    ensures Missing(Q.Recover(m), 1)
  {
    H.IdBagHas(Q.Recover(m).items, 1);
  }

  /** Deleting a queued task leaves its item behind. */
  lemma DeleteBreaksMirror()
    ensures var m := Q.Delete(Q.Enqueue(Q.Empty(2), PLAIN), 1);
            m.items == [Q.ItemOf(PLAIN)] && 1 !in m.inQueue && 1 !in m.tasks
  {
    OneEnqueued(PLAIN);
  }

  /** A pair of Submit and Remove leaves an item that fills the queue: nothing is queued, and the next one is
      refused. */
  lemma LeftoverFillsQueue()
    ensures var m := Q.Delete(Q.Enqueue(Q.Empty(1), PLAIN), 1);
            m.inQueue == {} && m.tasks == map[] && !m.closed && !Q.Accepts(m)
  {
    assert Q.Enqueue(Q.Empty(1), PLAIN).tasks == map[1 := PLAIN];
  }

  const LATER := PLAIN.(status := Delayed, scheduledAt := Some(100))

  lemma LaterEnqueued()
    ensures var m := Q.Enqueue(Q.Empty(1), LATER);
            && m == Q.Empty(1).(tasks := map[1 := LATER], items := [Q.ItemOf(LATER)], gen := 1, inQueue := {1})
            && Q.FirstReady(m, 0, 0) == 1 && W.WakeTime(m, 0) == 100
  {
    var m := Q.Enqueue(Q.Empty(1), LATER);
    assert !Q.Ready(m.tasks, m.items[0], 0);
    assert W.Earliest(m, 0) == None;
  }

  /** A queued task saved again as due, on a full queue: Save does not wake anybody and Enqueue is refused, so a
      dequeuer asleep until time 100 misses it at time 1. */
  lemma ResaveLosesWakeup()
    ensures var m := Q.Enqueue(Q.Empty(1), LATER);
            var e := Q.Enqueue(Q.Save(m, PLAIN), PLAIN);
            && Q.FirstReady(m, 0, 0) == |m.items| && 1 < W.WakeTime(m, 0)
            && !W.Rung(e, W.Nap(m.gen, W.WakeTime(m, 0))) && Q.FirstReady(e, 1, 0) < |e.items|
  {
    LaterEnqueued();
    var s := Q.Save(Q.Enqueue(Q.Empty(1), LATER), PLAIN);
    assert !Q.Accepts(s);
    assert Q.Ready(s.tasks, s.items[0], 1);
  }

  /** On an empty queue a dequeuer sleeps for no time. */
  lemma EmptyQueuePolls()
    ensures W.WakeTime(Q.Empty(1), 0) == 0
  {
  }

  // ---------- the database backends ----------

  const TAGGED := PLAIN.(metadata := 5)
  const SOON := PLAIN.(scheduledAt := Some(0))
  const FIRST := NO_TASK.(id := 1, priority := 0)
  const SECOND := NO_TASK.(id := 2, priority := 1)

  /** At the instant of its schedule a task is claimable in SQL and not in memory; once it is past, a Delayed one is
      claimable in memory and not in SQL. */
  lemma BackendsDiffer()
    ensures Rows.Selectable(map[1 := SOON], 1, 0) && !Q.Ready(map[1 := SOON], Q.ItemOf(SOON), 0)
    ensures Q.Ready(map[1 := LATER], Q.ItemOf(LATER), 101) && !Rows.Selectable(map[1 := LATER], 1, 101)
  {
  }

  /** While another transaction holds the better row, the worse one is claimed. */
  lemma LockedClaimOutOfTurn()
    ensures var s := SqlClaims.Start(1).(rows := map[1 := FIRST, 2 := SECOND]);
            var claim := SqlClaims.SClaimLocked(2, 0, {1});
            && SqlClaims.Apply(SqlClaims.Apply(SqlClaims.Start(1), SqlClaims.SInsert(FIRST)),
               SqlClaims.SInsert(SECOND)).rows == s.rows
            && SqlClaims.Enabled(s, claim) && !SqlClaims.InTurn(s.rows, {1}, 2, 0)
            && SqlClaims.Apply(s, claim).rows[1].status == Pending
               && SqlClaims.Apply(s, claim).rows[2].status == Running
  {
  }

  /** What MySQL reads back of a task with metadata. */
  lemma MysqlLosesMetadata()
    ensures SqlBackends.Inserted(TAGGED).metadata == 5
    ensures SqlBackends.Scanned(SqlBackends.Inserted(TAGGED)).metadata == EMPTY
  {
  }

  // ---------- runs of a pool with two workers ----------

  /** One known type without a limit, batch callback registered. */
  const CFG := Config({1}, map[], true)

  ghost predicate Reached(s: State) {
    exists steps :: CanRun(Init(CFG, 2), steps) && After(Init(CFG, 2), steps) == s
  }

  lemma {:induction false} RunAndStep(s: State, steps: seq<Step>, step: Step)
    requires CanRun(s, steps) && Enabled(After(s, steps), step)
    ensures CanRun(s, steps + [step]) && After(s, steps + [step]) == Apply(After(s, steps), step)
    decreases |steps|
  {
    if steps == [] {
      assert ([] + [step])[1..] == [];
    } else {
      assert (steps + [step])[1..] == steps[1..] + [step];
      RunAndStep(Apply(s, steps[0]), steps[1..], step);
    }
  }

  lemma StartIsReached()
    ensures Reached(Init(CFG, 2))
  {
    assert CanRun(Init(CFG, 2), []);
  }

  lemma StepIsReached(s: State, step: Step)
    requires Reached(s) && Enabled(s, step)
    ensures Reached(Apply(s, step))
  {
    var steps :| CanRun(Init(CFG, 2), steps) && After(Init(CFG, 2), steps) == s;
    RunAndStep(Init(CFG, 2), steps, step);
  }

  /** A task of the known type. */
  function Job(id: TaskId, b: BatchId, maxRetries: int): Task {
    NO_TASK.(id := id, kind := 1, batch := b, maxRetries := maxRetries)
  }

  lemma Submits(s: State, t: Task, ok: bool) returns (e: State)
    requires Reached(s) && Submittable(s, t)
    ensures Reached(e) && e == Submit(s, t, ok)
  {
    StepIsReached(s, DoSubmit(t, ok));
    e := Submit(s, t, ok);
  }

  lemma Tracks(s: State, b: BatchId) returns (e: State)
    requires Reached(s) && b in s.untracked
    ensures Reached(e) && e == Track(s, b)
  {
    StepIsReached(s, DoTrack(b));
    e := Track(s, b);
  }

  /** Worker `w` claims `id` and gets to its handler. */
  lemma Launches(s: State, w: nat, id: TaskId) returns (e: State)
    requires Reached(s) && WorkerAt(s, w, Idle) && Claimable(s.store, id, 0) && s.cfg == CFG
    ensures Reached(e)
    ensures var t, k := Claimed(s.store, id, 0).tasks[id], s.store.tasks[id].kind;
            e == s.(
              store := Claimed(s.store, id, 0),
              ws := s.ws[w := s.ws[w].(pc := Executing, task := t, token := s.ctl.next)],
              ctl := s.ctl.(registry := s.ctl.registry[t.id := s.ctl.next], next := s.ctl.next + 1),
              res := Resources(s.res.sem, s.res.gauge[k := At(s.res.gauge, k) + 1]))
  {
    StepIsReached(s, DoTake(w, id, 0));
    e := Begins(Take(s, w, id, 0), w);
  }

  lemma Begins(s: State, w: nat) returns (e: State)
    requires Reached(s) && WorkerAt(s, w, Holding) && HasSlot(s, w)
    ensures Reached(e)
    ensures var x, k := s.ws[w], s.ws[w].task.kind;
            e == s.(
              ws := s.ws[w := x.(pc := Executing, token := s.ctl.next)],
              ctl := s.ctl.(registry := s.ctl.registry[x.task.id := s.ctl.next], next := s.ctl.next + 1),
              res := Resources(if k in s.cfg.limits then s.res.sem[k := At(s.res.sem, k) + 1] else s.res.sem,
                               s.res.gauge[k := At(s.res.gauge, k) + 1]))
  {
    StepIsReached(s, DoAdmit(w));
    StepIsReached(Admit(s, w), DoEnterGauge(w));
    StepIsReached(EnterGauge(Admit(s, w), w), DoRegister(w));
    e := Begun(s, w);
    BegunAtOnce(s, w);
  }

  /** Its handler returns and the outcome is decided. */
  lemma Decides(s: State, w: nat, failed: bool) returns (e: State)
    requires Reached(s) && WorkerAt(s, w, Executing) && Known(s, w)
    ensures Reached(e)
    ensures var x := s.ws[w].(failed := failed);
            e == s.(ws := s.ws[w := x.(pc := Judged, verdict := VerdictFor(s, x))],
                    ctl := s.ctl.(signals := s.ctl.signals - {x.task.id}))
  {
    var r := Return(s, w, failed);
    StepIsReached(s, DoReturn(w, failed));
    StepIsReached(r, DoJudge(w));
    assert VerdictFor(r, r.ws[w]) == VerdictFor(s, s.ws[w].(failed := failed));
    e := Judge(r, w);
  }

  /** The outcome is written; a retry's Enqueue is accepted. */
  lemma Writes(s: State, w: nat) returns (e: State)
    requires Reached(s) && ReadyToWrite(s, w)
    ensures Reached(e) && e == Record(s, w, true, EMPTY, EMPTY, 0)
  {
    StepIsReached(s, DoRecord(w, true, EMPTY, EMPTY, 0));
    e := Record(s, w, true, EMPTY, EMPTY, 0);
  }

  /** A pause reads the cache, writes what it found and sets the status. */
  lemma PausesNow(s: State, w: nat) returns (e: State)
    requires Reached(s) && WorkerAt(s, w, Judged) && s.ws[w].verdict == Intervene(Paused)
    ensures Reached(e) && e.progress == s.progress && e.inflight == s.inflight && e.ctl == s.ctl && |e.ws| == |s.ws|
    ensures e.ws == s.ws[w := e.ws[w]] && e.ws[w].pc == Recorded && e.ws[w].token == s.ws[w].token
    ensures e.ws[w].failed == s.ws[w].failed
    ensures var id := s.ws[w].task.id;
            e.store == WithStatus(if id in s.progress then WithProgress(s.store, id, s.progress[id]) else s.store,
                                  id, Paused, EMPTY, 0)
  {
    var p := Prepares(s, w);
    e := WritesPause(p, w);
  }

  lemma Prepares(s: State, w: nat) returns (p: State)
    requires Reached(s) && WorkerAt(s, w, Judged) && s.ws[w].verdict == Intervene(Paused)
    ensures Reached(p) && ReadyToWrite(p, w) && p == s.(ws := s.ws[w := p.ws[w]], store := p.store)
    ensures p.ws[w].task == s.ws[w].task && p.ws[w].verdict == s.ws[w].verdict && p.ws[w].failed == s.ws[w].failed
    ensures p.ws[w].token == s.ws[w].token
    ensures var id := s.ws[w].task.id;
            p.store == if id in s.progress then WithProgress(s.store, id, s.progress[id]) else s.store
  {
    StepIsReached(s, DoReadCache(w));
    StepIsReached(ReadCache(s, w), DoFlushCached(w));
    PreparedEffect(s, w);
    p := Prepared(s, w);
  }

  lemma WritesPause(s: State, w: nat) returns (e: State)
    requires Reached(s) && ReadyToWrite(s, w) && s.ws[w].verdict == Intervene(Paused)
    ensures Reached(e) && e.progress == s.progress && e.inflight == s.inflight && e.ctl == s.ctl && |e.ws| == |s.ws|
    ensures e.ws == s.ws[w := e.ws[w]] && e.ws[w].pc == Recorded && e.ws[w].token == s.ws[w].token
    ensures e.ws[w].failed == s.ws[w].failed && e.store == WithStatus(s.store, s.ws[w].task.id, Paused, EMPTY, 0)
  {
    e := Writes(s, w);
  }

  lemma Announces(s: State, w: nat) returns (e: State)
    requires Reached(s) && ReadyToLeave(s, w)
    ensures Reached(e) && WorkerAt(e, w, Counted) && !e.ws[w].fire
    ensures var t := s.ws[w].task;
            var counts := s.ws[w].pc == Recorded && CountsBatch(s, t);
            && e == s.(ws := s.ws[w := e.ws[w]], batches := e.batches, fired := e.fired) && e.ws[w].task == t
            && e.batches == (if counts
                             then s.batches[t.batch := s.batches[t.batch].(done := s.batches[t.batch].done + 1)]
                             else s.batches)
            && e.fired == (if counts && e.batches[t.batch].total <= e.batches[t.batch].done
                              && BatchResults(s.store, t.batch) != map[]
                           then s.fired + [Firing(t.batch, BatchResults(s.store, t.batch))] else s.fired)
  {
    if s.ws[w].pc == Recorded {
      StepIsReached(s, DoCount(w));
      if CountBatch(s, w).ws[w].fire { StepIsReached(CountBatch(s, w), DoFire(w)); }
    }
    e := Announced(s, w);
    AnnouncedEffect(s, w);
  }

  lemma Leaves(s: State, w: nat) returns (e: State)
    requires Reached(s) && WorkerAt(s, w, Counted) && !s.ws[w].fire
    ensures Reached(e)
    ensures |e.ws| == |s.ws| && e.ws[w].pc == Idle
    ensures e == s.(ws := s.ws[w := e.ws[w]], ctl := s.ctl.(registry := s.ctl.registry - {s.ws[w].task.id}),
              res := e.res)
  {
    StepIsReached(s, DoUnlist(w));
    StepIsReached(Unlist(s, w), DoLeaveGauge(w));
    StepIsReached(LeaveGauge(Unlist(s, w), w), DoRelease(w));
    e := Undone(s, w);
    UndoneAtOnce(s, w);
  }

  /** Worker 0's job succeeded; the worker counted its batch and left. */
  ghost predicate FinishedFrom(s: State, e: State)
    requires |s.ws| > 0
  {
    var t := s.ws[0].task;
    var b, counts := t.batch, CountsBatch(s, t);
    && |e.ws| == |s.ws| && e.ws == s.ws[0 := e.ws[0]] && e.ws[0].pc == Idle
    && e.cfg == s.cfg && e.untracked == s.untracked && e.ctl.signals == s.ctl.signals - {t.id}
    && e.store == WithStatus(WithResult(s.store, t.id, EMPTY), t.id, Completed, EMPTY, 0)
    && e.batches == (if counts then s.batches[b := s.batches[b].(done := s.batches[b].done + 1)] else s.batches)
    && e.fired == (if counts && e.batches[b].total <= e.batches[b].done && BatchResults(e.store, b) != map[]
                   then s.fired + [Firing(b, BatchResults(e.store, b))] else s.fired)
  }

  lemma Finishes(s: State) returns (e: State)
    requires Reached(s) && WorkerAt(s, 0, Executing) && Known(s, 0) && s.ws[0].task.id !in s.ctl.signals
    ensures Reached(e) && FinishedFrom(s, e)
  {
    var r := Completes(s);
    var a := Announces(r, 0);
    e := Leaves(a, 0);
  }

  lemma Completes(s: State) returns (e: State)
    requires Reached(s) && WorkerAt(s, 0, Executing) && Known(s, 0) && s.ws[0].task.id !in s.ctl.signals
    ensures Reached(e)
    ensures var t := s.ws[0].task;
            && |e.ws| == |s.ws| && e.ws == s.ws[0 := e.ws[0]] && e.ws[0].pc == Recorded && e.ws[0].task == t
            && e.cfg == s.cfg && e.untracked == s.untracked && e.batches == s.batches && e.fired == s.fired
            && e.store == WithStatus(WithResult(s.store, t.id, EMPTY), t.id, Completed, EMPTY, 0)
            && e.ctl.signals == s.ctl.signals - {t.id}
  {
    var d := Decides(s, 0, false);
    assert d.ws[0].verdict == Complete;
    e := Writes(d, 0);
  }

  // ---------- submits ----------

  lemma SubmitsFirst(t: Task, ok: bool) returns (e: State)
    requires Submittable(Init(CFG, 2), t)
    ensures Reached(e) && e == Submit(Init(CFG, 2), t, ok)
  {
    StartIsReached();
    e := Submits(Init(CFG, 2), t, ok);
  }

  /** A refused Submit leaves a Pending record that nobody will run and Start refuses. */
  lemma RefusedSubmitStrands()
    ensures exists s :: Reached(s) && Activity.Stranded(s, 1) && !Startable(s, 1)
  {
    var s := SubmitsFirst(Job(1, 0, 0), false);
    assert Activity.Stranded(s, 1) && !Startable(s, 1);
  }

  /** Cancelling batch 1 strands a task of batch 2. */
  lemma CancelBatchStrands()
    ensures exists s :: Reached(s) && Activity.Stranded(s, 1) && s.store.tasks[1].batch == 2
  {
    var a := SubmitsFirst(Job(1, 2, 0), true);
    StepIsReached(a, DoCancelBatch(1));
    assert Activity.Stranded(CancelBatch(a, 1), 1) && CancelBatch(a, 1).store.tasks[1].batch == 2;
  }

  /** A ready task is claimed after the pool was stopped. */
  lemma StoppedPoolStillClaims()
    ensures exists s :: Reached(s) && s.stopped && Enabled(s, DoTake(0, 1, 0))
  {
    var a := SubmitsFirst(Job(1, 0, 0), true);
    StepIsReached(a, DoShutdown);
    assert Shutdown(a).stopped && Enabled(Shutdown(a), DoTake(0, 1, 0));
  }

  // ---------- one worker executing ----------

  const HELD := Job(1, 0, 1).(status := Running, startedAt := Some(0))

  /** Worker 0 runs a job of batch `b` with one retry; its submit is tracked if `tracked`. */
  ghost predicate FirstRun(s: State, b: BatchId, tracked: bool) {
    && s.store == Store(map[1 := HELD.(batch := b)], {}) && s.cfg == CFG
    && s.ws == [IDLE.(pc := Executing, task := HELD.(batch := b)), IDLE]
    && s.ctl == Control(map[1 := 0], map[], {}, {}, 1)
    && s.progress == map[] && s.fired == [] && s.inflight == multiset{}
    && s.untracked == (if tracked then multiset{} else multiset{b})
    && s.batches == (if tracked then TrackBatch(CFG, map[], b) else map[])
  }

  lemma RunsFirst(b: BatchId, tracked: bool) returns (e: State)
    ensures Reached(e) && FirstRun(e, b, tracked)
  {
    var a := SubmitsFirst(Job(1, b, 1), true);
    if tracked { a := Tracks(a, b); }
    e := Launches(a, 0, 1);
  }

  /** The situation of `Signals.CancelBeforeRecordRetries` occurs. */
  lemma SwapHasARun()
    ensures exists s :: Reached(s) && WorkerAt(s, 0, Executing) && Known(s, 0) && Signals.Reachable(s, 0)
                        && s.ws[0].task.id !in s.ctl.signals && s.ws[0].task.retries < s.ws[0].task.maxRetries
  {
    var s := RunsFirst(0, true);
    assert WorkerAt(s, 0, Executing) && Known(s, 0) && Signals.Reachable(s, 0);
  }

  /** `id` is stored with this status, metadata and progress. */
  predicate Stored(s: State, id: TaskId, status: TaskStatus, metadata: Blob, progress: (int, int)) {
    && id in s.store.tasks && s.store.tasks[id].status == status && s.store.tasks[id].metadata == metadata
    && s.store.tasks[id].progress == progress
  }

  /** Job 1 reports `p`, which reaches the backend. */
  lemma Reports(s: State, p: (int, int)) returns (e: State)
    requires Reached(s)
    ensures Reached(e) && e == s.(progress := s.progress[1 := p], store := WithProgress(s.store, 1, p))
  {
    StepIsReached(s, DoReport(1, p, true));
    var r := Report(s, 1, p, true);
    StepIsReached(r, DoLand(1, p));
    e := Land(r, 1, p);
    assert e.inflight == s.inflight;
  }

  /** A checkpoint and a report stored during a failed run are gone after the retry. */
  lemma RetryLosesCheckpoint()
    ensures exists s :: Reached(s) && WorkerAt(s, 0, Judged) && s.ws[0].verdict == Retry
              && Stored(s, 1, Running, 5, (3, 4))
                        && Stored(Record(s, 0, true, EMPTY, EMPTY, 0), 1, Pending, EMPTY, (0, 0))
  {
    var a := RunsFirst(0, true);
    StepIsReached(a, DoSaveMetadata(1, 5));
    var b := Reports(SaveMetadata(a, 1, 5), (3, 4));
    var s := Decides(b, 0, true);
    assert s.ws[0].verdict == Retry && Stored(s, 1, Running, 5, (3, 4));
    assert Stored(Record(s, 0, true, EMPTY, EMPTY, 0), 1, Pending, EMPTY, (0, 0));
  }

  /** Worker 0 runs job 1, which has reported 1/2; `older` is on its way to the backend still. */
  lemma RunsReporting(older: bool) returns (b: State)
    ensures Reached(b) && b.cfg == CFG && b.ws == [IDLE.(pc := Executing, task := HELD), IDLE]
    ensures b.store == Store(map[1 := HELD.(progress := (1, 2))], {}) && b.progress == map[1 := (1, 2)]
    ensures b.inflight == if older then multiset{Write(1, (0, 2))} else multiset{}
    ensures b.ctl == Control(map[1 := 0], map[], {}, {}, 1)
  {
    var a := RunsFirst(0, true);
    if older {
      StepIsReached(a, DoReport(1, (0, 2), true));
      a := Report(a, 1, (0, 2), true);
    }
    b := Reports(a, (1, 2));
  }

  /** It was asked to pause, and its worker has decided to. */
  lemma AboutToPause(older: bool) returns (c: State)
    ensures Reached(c) && c.cfg == CFG && |c.ws| == 2
    ensures c.ws[0] == IDLE.(pc := Judged, task := HELD, verdict := Intervene(Paused))
    ensures c.store == Store(map[1 := HELD.(progress := (1, 2))], {}) && c.progress == map[1 := (1, 2)]
    ensures c.inflight == if older then multiset{Write(1, (0, 2))} else multiset{}
  {
    var b := RunsReporting(older);
    StepIsReached(b, DoSignal(1, Paused));
    c := Decides(Signal(b, 1, Paused), 0, false);
  }

  /** A throttled report after the pause makes the stored progress stale. */
  lemma LateReportStales()
    ensures exists s :: Reached(s) && Stored(s, 1, Paused, EMPTY, (1, 2)) && !Pauses.PausedFresh(s)
  {
    var c := AboutToPause(false);
    var d := PausesNow(c, 0);
    StepIsReached(d, DoReport(1, (3, 4), false));
    var s := Report(d, 1, (3, 4), false);
    assert Stored(s, 1, Paused, EMPTY, (1, 2)) && 1 in s.progress;
  }

  /** A report that is cached and written between the pause's reading of the cache and its flush is overwritten: the
      paused task is stale although nothing was reported after the pause and nothing is in flight. */
  lemma ReportDuringPauseIsLost()
    ensures exists s :: Reached(s) && Stored(s, 1, Paused, EMPTY, (1, 2)) && s.progress == map[1 := (3, 4)]
                        && s.inflight == multiset{} && !Pauses.PausedFresh(s)
  {
    var c := ReadsThenReports();
    StepIsReached(c, DoFlushCached(0));
    var d := FlushCached(c, 0);
    assert d.store.tasks == map[1 := HELD.(progress := (1, 2))];
    var s := Writes(d, 0);
    assert Stored(s, 1, Paused, EMPTY, (1, 2)) && 1 in s.progress;
  }

  lemma ReadsThenReports() returns (d: State)
    ensures Reached(d) && |d.ws| == 2 && d.progress == map[1 := (3, 4)] && d.inflight == multiset{}
    ensures d.ws[0] == IDLE.(pc := Cached, task := HELD, verdict := Intervene(Paused), cached := Some((1, 2)))
    ensures d.store == Store(map[1 := HELD.(progress := (3, 4))], {})
  {
    var c := AboutToPause(false);
    StepIsReached(c, DoReadCache(0));
    d := Reports(ReadCache(c, 0), (3, 4));
  }

  /** Of two concurrent reports the older one reaches the backend last, after the pause. */
  lemma OlderReportLandsLast()
    ensures exists s :: Reached(s) && Stored(s, 1, Paused, EMPTY, (0, 2)) && s.progress == map[1 := (1, 2)]
                        && s.inflight == multiset{} && !Pauses.PausedFresh(s)
  {
    var c := AboutToPause(true);
    var d := PausesNow(c, 0);
    StepIsReached(d, DoLand(1, (0, 2)));
    var s := Land(d, 1, (0, 2));
    assert Stored(s, 1, Paused, EMPTY, (0, 2)) && 1 in s.progress;
  }

  /** StopTask on a task of unknown type: it fails, and the intent is left for the next execution. */
  lemma UnknownTypeIgnoresStop()
    ensures exists s :: Reached(s) && StatusOf(s.store, 1) == Some(Failed) && s.ctl.signals == map[1 := Paused]
  {
    var a := SubmitsFirst(Job(1, 0, 0).(kind := 2), true);
    var b := Launches(a, 0, 1);
    StepIsReached(b, DoSignal(1, Paused));
    StepIsReached(Signal(b, 1, Paused), DoReject(0, EMPTY, 0));
    var s := Reject(Signal(b, 1, Paused), 0, EMPTY, 0);
    assert StatusOf(s.store, 1) == Some(Failed) && s.ctl.signals == map[1 := Paused];
  }

  // ---------- the same id in two workers ----------

  /** Worker 0 has failed the job and decided to retry it; `late` signals it after its check. */
  lemma Retries(late: bool) returns (c: State)
    ensures Reached(c) && c.cfg == CFG && c.store == Store(map[1 := RetryCopy(HELD, 0)], {1})
    ensures c.ws == [IDLE.(pc := Counted, task := HELD, failed := true, verdict := Retry), IDLE]
    ensures c.ctl == Control(map[1 := 0], if late then map[1 := Paused] else map[], if late then {0} else {}, {}, 1)
  {
    var f := RunsFirst(0, true);
    var a := Decides(f, 0, true);
    assert a.ws[0].verdict == Retry;
    if late {
      StepIsReached(a, DoSignal(1, Paused));
      a := Signal(a, 1, Paused);
    }
    c := WritesRetry(a);
  }

  lemma WritesRetry(a: State) returns (c: State)
    requires Reached(a) && WorkerAt(a, 0, Judged) && a.ws[0].verdict == Retry
    ensures Reached(c) && c.cfg == a.cfg && c.ctl == a.ctl && |c.ws| == |a.ws|
    ensures c.store == Enqueued(a.store, RetryCopy(a.ws[0].task, 0))
    ensures c.ws == a.ws[0 := a.ws[0].(pc := Counted, fire := false)]
  {
    c := Writes(a, 0);
  }

  /** Worker 0 has not yet left; worker 1 has claimed and registered the job. */
  lemma RunsAgain(late: bool) returns (e: State)
    ensures Reached(e) && e.cfg == CFG && |e.ws| == 2 && StatusOf(e.store, 1) == Some(Running)
    ensures e.ws[0].pc == Counted && !e.ws[0].fire && e.ws[0].task.id == 1
    ensures e.ws[1].pc == Executing && e.ws[1].task.id == 1 && e.ws[1].task.kind == 1 && e.ws[1].token == 1
    ensures e.ctl == Control(map[1 := 1], if late then map[1 := Paused] else map[], if late then {0} else {}, {}, 2)
  {
    var c := Retries(late);
    e := Launches(c, 1, 1);
  }

  /** Worker 0's unregistration hides worker 1's execution: it is registered and running, and StopTask refuses. */
  lemma UnlistHides()
    ensures exists s :: Reached(s) && Holder(s.ws, 1, 1) && Listed(s.ws[1]) && StatusOf(s.store, 1) == Some(Running)
                        && 1 !in s.ctl.registry
  {
    var s := RunsAgain(false);
    StepIsReached(s, DoUnlist(0));
    var e := Unlist(s, 0);
    assert Holder(e.ws, 1, 1) && Listed(e.ws[1]) && 1 !in e.ctl.registry;
  }

  /** StopTask came after worker 0's check: that execution is retried, and the next one, which succeeds and which
      nobody asked to stop, is stored as Paused. */
  lemma LateSignalPausesTheNext()
    ensures exists s :: Reached(s) && StatusOf(s.store, 1) == Some(Paused) && s.ctl.issued == {0}
                        && |s.ws| == 2 && s.ws[1].token == 1 && !s.ws[1].failed && s.ws[1].pc == Recorded
  {
    var s := RunsAgain(true);
    var d := Decides(s, 1, false);
    assert d.ws[1].verdict == Intervene(Paused);
    var e := PausesNow(d, 1);
    assert StatusOf(e.store, 1) == Some(Paused);
  }

  // ---------- batches ----------

  predicate AllIdle(s: State) {
    forall w :: 0 <= w < |s.ws| ==> s.ws[w].pc == Idle
  }

  /** The task is counted before its submit is tracked: all is done, and the batch is never complete. */
  lemma EarlyCountIsMissed()
    ensures exists s :: Reached(s) && AllIdle(s) && s.untracked == multiset{}
                        && StatusOf(s.store, 1) == Some(Completed) && s.fired == []
                        && s.batches == map[1 := BatchCounter(1, 0)]
  {
    var a := RunsFirst(1, false);
    var b := Finishes(a);
    assert !CountsBatch(a, a.ws[0].task);
    var s := Tracks(b, 1);
    assert AllIdle(s) && StatusOf(s.store, 1) == Some(Completed) && s.untracked == multiset{};
  }

  /** Worker 0 runs job 1 of batch 1, tracked, while job 2 of the batch is submitted. */
  lemma SubmitsSecond(ok: bool, tracked: bool) returns (e: State)
    ensures Reached(e) && e.cfg == CFG
    ensures e.store == Store(map[1 := HELD.(batch := 1), 2 := Job(2, 1, 0)], if ok then {2} else {})
    ensures e.ws == [IDLE.(pc := Executing, task := HELD.(batch := 1)), IDLE]
    ensures e.ctl == Control(map[1 := 0], map[], {}, {}, 1) && e.fired == []
    ensures e.untracked == (if ok && !tracked then multiset{1} else multiset{})
    ensures e.batches == map[1 := BatchCounter(if ok && tracked then 2 else 1, 0)]
  {
    var a := RunsFirst(1, true);
    e := Submits(a, Job(2, 1, 0), ok);
    if ok && tracked { e := Tracks(e, 1); }
  }

  predicate TwoStatuses(s: Store, one: TaskStatus, two: TaskStatus) {
    && s.tasks.Keys == {1, 2} && s.tasks[1].batch == s.tasks[2].batch == 1
    && s.tasks[1].status == one && s.tasks[2].status == two
  }

  lemma ResultsOfTwo(s: Store, one: TaskStatus, two: TaskStatus)
    requires TwoStatuses(s, one, two)
    ensures BatchResults(s, 1) == map[1 := one, 2 := two]
  {
  }

  lemma ReportsPending(ok: bool) returns (e: State)
    ensures Reached(e) && TwoStatuses(e.store, Completed, Pending) && e.store.queue == (if ok then {2} else {})
    ensures e.fired == [Firing(1, map[1 := Completed, 2 := Pending])]
  {
    var b := SubmitsSecond(ok, false);
    e := Finishes(b);
    assert TwoStatuses(e.store, Completed, Pending);
    ResultsOfTwo(e.store, Completed, Pending);
    assert CountsBatch(b, b.ws[0].task) && e.batches[1] == BatchCounter(1, 1);
  }

  /** With the second submit not tracked yet, the callback is made and lists its task as Pending. */
  lemma UntrackedSubmitIsReportedPending()
    ensures exists s :: Reached(s) && s.fired == [Firing(1, map[1 := Completed, 2 := Pending])] && 2 in s.store.queue
  {
    var s := ReportsPending(true);
    assert 2 in s.store.queue;
  }

  /** A refused submit to the batch leaves a record that the callback lists as Pending and that stays so. */
  lemma RefusedSubmitIsReportedPending()
    ensures exists s :: Reached(s) && s.fired == [Firing(1, map[1 := Completed, 2 := Pending])]
              && Activity.Stranded(s, 2)
  {
    var s := ReportsPending(false);
    assert Activity.Stranded(s, 2);
  }

  /** A member terminated in the queue is never counted: everything is final and no callback was made. */
  lemma TerminatedMemberSilencesBatch()
    ensures exists s :: Reached(s) && AllIdle(s) && TwoStatuses(s.store, Completed, Cancelled)
              && s.untracked == multiset{}
                        && s.fired == [] && s.batches == map[1 := BatchCounter(2, 1)]
  {
    var b := SubmitsSecond(true, true);
    StepIsReached(b, DoTerminateIdle(2, EMPTY, 0));
    var c := TerminateIdle(b, 2, EMPTY, 0);
    assert c.store == Store(map[1 := HELD.(batch := 1), 2 := Job(2, 1, 0).(status := Cancelled)], {});
    assert c.ws == b.ws && c.ctl == b.ctl && c.batches == map[1 := BatchCounter(2, 0)] && c.fired == [];
    var e := FinishesBesideCancelled(c);
  }

  lemma FinishesBesideCancelled(c: State) returns (e: State)
    requires Reached(c) && c.cfg == CFG && c.ctl.signals == map[] && c.untracked == multiset{} && c.fired == []
    requires c.store == Store(map[1 := HELD.(batch := 1), 2 := Job(2, 1, 0).(status := Cancelled)], {})
    requires c.ws == [IDLE.(pc := Executing, task := HELD.(batch := 1)), IDLE]
              && c.batches == map[1 := BatchCounter(2, 0)]
    ensures Reached(e) && AllIdle(e) && TwoStatuses(e.store, Completed, Cancelled) && e.untracked == multiset{}
    ensures e.fired == [] && e.batches == map[1 := BatchCounter(2, 1)]
  {
    e := Finishes(c);
    assert CountsBatch(c, c.ws[0].task);
  }

  /** Job 1 of batch 1 is completed and called back. */
  lemma CompletesFirst() returns (e: State)
    ensures Reached(e) && AllIdle(e) && |e.ws| == 2 && e.cfg == CFG && e.store.tasks.Keys == {1}
              && e.ctl.signals == map[]
    ensures e.batches == map[1 := BatchCounter(1, 1)] && |e.fired| == 1 && e.fired[0].batch == 1
  {
    var a := RunsFirst(1, true);
    e := Finishes(a);
    assert CountsBatch(a, a.ws[0].task) && 1 in BatchResults(e.store, 1);
  }

  /** Then job 2 of the batch is submitted and taken. */
  lemma Reopens() returns (e: State)
    ensures Reached(e) && WorkerAt(e, 0, Executing) && Known(e, 0) && e.cfg == CFG && e.ctl.signals == map[]
    ensures e.ws[0].task == Job(2, 1, 0).(status := Running, startedAt := Some(0)) && 2 in e.store.tasks
    ensures e.store.tasks[2].batch == 1
    ensures e.batches == map[1 := BatchCounter(2, 1)] && |e.fired| == 1 && e.fired[0].batch == 1
  {
    var a := CompletesFirst();
    var b := Submits(a, Job(2, 1, 0), true);
    var c := Tracks(b, 1);
    e := Launches(c, 0, 2);
  }

  /** A submit after the batch was complete makes a second callback. */
  lemma LateSubmitCallsBackTwice()
    ensures exists s :: Reached(s) && Batches.TimesFired(s.fired, 1) == 2
  {
    var d := Reopens();
    var e := Finishes(d);
    assert CountsBatch(d, d.ws[0].task) && 2 in BatchResults(e.store, 1);
    assert e.batches[1] == BatchCounter(2, 2);
    assert e.fired == [e.fired[0], e.fired[1]] && e.fired[0].batch == e.fired[1].batch == 1;
    TwoFired(e.fired[0], e.fired[1]);
  }

  lemma TwoFired(f: Firing, g: Firing)
    requires f.batch == g.batch == 1
    ensures Batches.TimesFired([f, g], 1) == 2
  {
    assert [f, g][..1] == [f] && [f][..0] == [];
    assert Batches.TimesFired([f], 1) == 1;
  }
}
