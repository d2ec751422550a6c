/** What becomes of a task's progress and metadata through pauses, restarts and retries (pool/engine.go,
    pool/progress.go). */
module Pauses {
  import opened Tasks
  import opened StoreSpec
  import opened Engine
  import opened Ownership
  import opened Capacity
  import opened Activity

  // ---------- a paused task and its last report ----------

  /** The value that SetProgress last cached for `id`. */
  function Reported(s: State, id: TaskId): Option<(int, int)> {
    if id in s.progress then Some(s.progress[id]) else None
  }

  /** A paused task is stored with the progress it last reported. */
  ghost predicate PausedFresh(s: State) {
    forall id :: id in s.store.tasks && s.store.tasks[id].status == Paused && id in s.progress
      ==> s.store.tasks[id].progress == s.progress[id]
  }

  /** A worker that is pausing its task has found the last report, and once it has written it, it is stored. */
  predicate PausesFresh(s: State, x: Worker) {
    && (x.pc == Cached || x.pc == Flushed ==> x.cached == Reported(s, x.task.id))
    && (x.pc == Flushed && x.cached.Some? ==>
          x.task.id in s.store.tasks && s.store.tasks[x.task.id].progress == x.cached.value)
  }

  ghost predicate AllFresh(s: State) {
    PausedFresh(s) && forall i :: 0 <= i < |s.ws| ==> PausesFresh(s, s.ws[i])
  }

  predicate StoredPaused(s: State, id: TaskId) {
    id in s.store.tasks && s.store.tasks[id].status == Paused
  }

  /** A report of another value than the one stored with a paused task, or found in the cache by a worker that is
      pausing it; or such a value, reported earlier, reaching the backend late. */
  predicate Staling(s: State, step: Step) {
    match step
    case DoReport(id, p, _) =>
      || (StoredPaused(s, id) && s.store.tasks[id].progress != p)
      || (exists i :: 0 <= i < |s.ws| && (s.ws[i].pc == Cached || s.ws[i].pc == Flushed) && s.ws[i].task.id == id
                      && s.ws[i].cached != Some(p))
    case DoLand(id, p) =>
      || (StoredPaused(s, id) && id in s.progress && s.store.tasks[id].progress != p)
      || (exists i :: 0 <= i < |s.ws| && s.ws[i].pc == Flushed && s.ws[i].task.id == id
                      && s.ws[i].cached.Some? && s.ws[i].cached.value != p)
    case _ => false
  }

  lemma ReportStalesExactly(s: State, step: Step)
    requires AllFresh(s) && step.DoReport?
    ensures AllFresh(Apply(s, step)) <==> !Staling(s, step)
  {
    var s' := Apply(s, step);
    if i :| 0 <= i < |s.ws| && (s.ws[i].pc == Cached || s.ws[i].pc == Flushed) && s.ws[i].task.id == step.id
            && s.ws[i].cached != Some(step.p) {
      assert !PausesFresh(s', s'.ws[i]);
    }
    if StoredPaused(s, step.id) { assert StoredPaused(s', step.id) && step.id in s'.progress; }
  }

  lemma StaleLanding(s: State, lost: set<TaskId>, id: TaskId, p: (int, int))
    requires AllFresh(s) && Enabled(s, DoLand(id, p)) && Owned(s.store, s.ws, lost) && Staling(s, DoLand(id, p))
    ensures !AllFresh(Land(s, id, p))
  {
    var s' := Land(s, id, p);
    if StoredPaused(s, id) && id in s.progress && s.store.tasks[id].progress != p {
      assert StoredPaused(s', id);
    } else {
      var i :| 0 <= i < |s.ws| && s.ws[i].pc == Flushed && s.ws[i].task.id == id && s.ws[i].cached.Some?
               && s.ws[i].cached.value != p;
      assert Holds(s.ws[i]);
      assert !PausesFresh(s', s'.ws[i]);
    }
  }

  lemma HarmlessLanding(s: State, id: TaskId, p: (int, int))
    requires AllFresh(s) && Enabled(s, DoLand(id, p)) && !Staling(s, DoLand(id, p))
    ensures AllFresh(Land(s, id, p))
  {
    var s' := Land(s, id, p);
    forall i | 0 <= i < |s.ws| ensures PausesFresh(s', s'.ws[i]) {
      assert PausesFresh(s, s.ws[i]);
    }
  }

  lemma LandingStalesExactly(s: State, lost: set<TaskId>, step: Step)
    requires AllFresh(s) && step.DoLand? && Enabled(s, step) && Owned(s.store, s.ws, lost)
    ensures AllFresh(Apply(s, step)) <==> !Staling(s, step)
  {
    if Staling(s, step) { StaleLanding(s, lost, step.id, step.p); } else { HarmlessLanding(s, step.id, step.p); }
  }

  /** The store change touches neither the progress of a running or paused task nor makes another one paused. */
  ghost predicate KeepsValues(s: Store, s': Store) {
    && (forall id :: id in s'.tasks && s'.tasks[id].status == Paused ==>
          id in s.tasks && s.tasks[id].status == Paused && s'.tasks[id].progress == s.tasks[id].progress)
    && (forall id :: id in s.tasks && s.tasks[id].status == Running ==>
          id in s'.tasks && s'.tasks[id].progress == s.tasks[id].progress)
  }

  lemma CallsKeepValues(s: State, lost: set<TaskId>, step: Step)
    requires Enabled(s, step) && Owned(s.store, s.ws, lost) && Mover(step).None? && !step.DoReport? && !step.DoLand?
    ensures KeepsValues(s.store, Apply(s, step).store) && Apply(s, step).progress == s.progress
  {
    if step.DoSubmit? { SubmitKeepsValues(s, lost, step); }
    else if step.DoStart? { StartKeepsValues(s, lost, step); }
    else if step.DoTerminateIdle? { TerminationKeepsValues(s, lost, step); }
    else if step.DoRemove? || step.DoCancelBatch? { RemovalsKeepValues(s, step); }
  }

  lemma RemovalsKeepValues(s: State, step: Step)
    requires Enabled(s, step) && (step.DoRemove? || step.DoCancelBatch?)
    ensures KeepsValues(s.store, Apply(s, step).store) && Apply(s, step).progress == s.progress
  {
  }

  /** A record that is not running is replaced by one that is not paused. */
  lemma OneRecordKeepsValues(s: Store, s': Store, id: TaskId, t: Task)
    requires s'.tasks == s.tasks[id := t] && t.status != Paused && (id in s.tasks ==> s.tasks[id].status != Running)
    ensures KeepsValues(s, s')
  {
  }

  lemma SubmitKeepsValues(s: State, lost: set<TaskId>, step: Step)
    requires Enabled(s, step) && Owned(s.store, s.ws, lost) && step.DoSubmit?
    ensures KeepsValues(s.store, Submit(s, step.t, step.ok).store) && Submit(s, step.t, step.ok).progress == s.progress
  {
    OneRecordKeepsValues(s.store, Submit(s, step.t, step.ok).store, step.t.id, step.t);
  }

  lemma StartKeepsValues(s: State, lost: set<TaskId>, step: Step)
    requires Enabled(s, step) && Owned(s.store, s.ws, lost) && step.DoStart?
    ensures KeepsValues(s.store, Start(s, step.id, step.ok).store) && Start(s, step.id, step.ok).progress == s.progress
  {
    if step.ok {
      OneRecordKeepsValues(s.store, Start(s, step.id, true).store, step.id, Reactivated(s.store.tasks[step.id]));
    }
  }

  lemma TerminationKeepsValues(s: State, lost: set<TaskId>, step: Step)
    requires Enabled(s, step) && Owned(s.store, s.ws, lost) && step.DoTerminateIdle?
    ensures var s' := TerminateIdle(s, step.id, step.error, step.now);
            KeepsValues(s.store, s'.store) && s'.progress == s.progress
  {
    var s' := TerminateIdle(s, step.id, step.error, step.now).store;
    OneRecordKeepsValues(s.store, s', step.id, s'.tasks[step.id]);
  }

  lemma ValuesKeepFresh(s: State, s': State, lost: set<TaskId>)
    requires AllFresh(s) && Owned(s.store, s.ws, lost) && KeepsValues(s.store, s'.store)
    requires s'.progress == s.progress && s'.ws == s.ws
    ensures AllFresh(s')
  {
    forall i | 0 <= i < |s.ws| ensures PausesFresh(s', s'.ws[i]) {
      assert PausesFresh(s, s.ws[i]);
      assert Holds(s.ws[i]) ==> s.store.tasks[s.ws[i].task.id].status == Running;
    }
  }

  lemma WorkersKeepReports(s: State, step: Step)
    requires Enabled(s, step) && Mover(step).Some?
    ensures Apply(s, step).progress == s.progress
  {
    if step.DoAdmit? || step.DoEnterGauge? || step.DoLeaveGauge? || step.DoRelease? || step.DoFire? || step.DoCount? {
      GatesKeepReports(s, step);
    }
  }

  lemma GatesKeepReports(s: State, step: Step)
    requires Enabled(s, step)
    requires step.DoAdmit? || step.DoEnterGauge? || step.DoLeaveGauge? || step.DoRelease? || step.DoFire?
             || step.DoCount?
    ensures Apply(s, step).progress == s.progress
  {
  }

  /** A worker step that leaves the store alone and neither reads the cache nor writes it. */
  lemma PlainMoveKeepsFresh(s: State, step: Step)
    requires Enabled(s, step) && AllFresh(s) && Mover(step).Some? && !TouchesTask(step)
    ensures AllFresh(Apply(s, step))
  {
    var s' := Apply(s, step);
    var w := Mover(step).value;
    MoverShape(s, step);
    WorkersKeepReports(s, step);
    MoveLightens(s, step);
    MoveReadsCache(s, step);
    forall i | 0 <= i < |s'.ws| ensures PausesFresh(s', s'.ws[i]) {
      assert i != w ==> PausesFresh(s, s.ws[i]);
    }
  }

  lemma MoveReadsCache(s: State, step: Step)
    requires Enabled(s, step) && Mover(step).Some? && !TouchesTask(step)
    ensures var s', w := Apply(s, step), Mover(step).value;
            w < |s'.ws| && s'.ws[w].pc != Flushed
            && (s'.ws[w].pc == Cached ==> s'.ws[w].cached == Reported(s, s'.ws[w].task.id))
  {
  }

  lemma FlushKeepsFresh(s: State, lost: set<TaskId>, w: nat)
    requires Enabled(s, DoFlushCached(w)) && AllFresh(s) && Owned(s.store, s.ws, lost)
    ensures AllFresh(FlushCached(s, w))
  {
    var s' := FlushCached(s, w);
    FlushWritesProgress(s, w);
    forall i | 0 <= i < |s'.ws| ensures PausesFresh(s', s'.ws[i]) {
      assert PausesFresh(s, s.ws[i]) && PausesFresh(s, s.ws[w]);
      assert Holds(s.ws[w]);
    }
  }

  lemma TakeKeepsFresh(s: State, lost: set<TaskId>, step: Step)
    requires Enabled(s, step) && AllFresh(s) && Owned(s.store, s.ws, lost) && step.DoTake?
    ensures AllFresh(Apply(s, step))
  {
    var s' := Apply(s, step);
    forall i | 0 <= i < |s'.ws| ensures PausesFresh(s', s'.ws[i]) {
      assert i != step.w ==> PausesFresh(s, s.ws[i]);
    }
  }

  lemma WriteKeepsFresh(s: State, lost: set<TaskId>, step: Step)
    requires Enabled(s, step) && AllFresh(s) && Owned(s.store, s.ws, lost) && (step.DoRecord? || step.DoReject?)
    ensures AllFresh(Apply(s, step))
  {
    var s' := Apply(s, step);
    SettleTouchesOne(s, lost, step);
    WorkersKeepReports(s, step);
    MoverShape(s, step);
    WrittenPauseIsFresh(s, lost, step);
    OneWriteKeepsFresh(s, s', lost, step.w);
  }

  lemma OneWriteKeepsFresh(s: State, s': State, lost: set<TaskId>, w: nat)
    requires AllFresh(s) && Owned(s.store, s.ws, lost) && w < |s.ws| == |s'.ws| && Holds(s.ws[w])
    requires s'.ws == s.ws[w := s'.ws[w]] && s'.ws[w].pc != Cached && s'.ws[w].pc != Flushed
              && s'.progress == s.progress
    requires var id := s.ws[w].task.id;
             && s'.store.tasks.Keys == s.store.tasks.Keys
             && (forall y :: y in s.store.tasks && y != id ==> s'.store.tasks[y] == s.store.tasks[y])
             && (StoredPaused(s', id) && id in s.progress ==> s'.store.tasks[id].progress == s.progress[id])
    ensures AllFresh(s')
  {
    forall i | 0 <= i < |s'.ws| ensures PausesFresh(s', s'.ws[i]) {
      assert i != w ==> PausesFresh(s, s.ws[i]);
    }
  }

  lemma WrittenPauseIsFresh(s: State, lost: set<TaskId>, step: Step)
    requires Enabled(s, step) && AllFresh(s) && Owned(s.store, s.ws, lost) && (step.DoRecord? || step.DoReject?)
    ensures var id, s' := s.ws[step.w].task.id, Apply(s, step);
            && step.w < |s'.ws| && s'.ws[step.w].pc != Cached && s'.ws[step.w].pc != Flushed
            && id in s'.store.tasks
            && (StoredPaused(s', id) && id in s.progress ==> s'.store.tasks[id].progress == s.progress[id])
  {
    assert Holds(s.ws[step.w]) && PausesFresh(s, s.ws[step.w]);
  }

  lemma WorkerKeepsFresh(s: State, lost: set<TaskId>, step: Step)
    requires Enabled(s, step) && AllFresh(s) && Owned(s.store, s.ws, lost) && Mover(step).Some?
    ensures AllFresh(Apply(s, step))
  {
    if step.DoTake? { TakeKeepsFresh(s, lost, step); }
    else if step.DoFlushCached? { FlushKeepsFresh(s, lost, step.w); }
    else if step.DoRecord? || step.DoReject? { WriteKeepsFresh(s, lost, step); }
    else { PlainMoveKeepsFresh(s, step); }
  }

  /** A step keeps every paused task, and every task being paused, with its last report exactly if it is neither a
      report of another value for it nor the late arrival of one: SetProgress accepts any id at any time, and a pause
      reads the cache before it writes. */
  lemma StepStalesExactly(s: State, lost: set<TaskId>, step: Step)
    requires Enabled(s, step) && Owned(s.store, s.ws, lost) && AllFresh(s)
    ensures AllFresh(Apply(s, step)) <==> !Staling(s, step)
  {
    if step.DoReport? { ReportStalesExactly(s, step); }
    else if step.DoLand? { LandingStalesExactly(s, lost, step); }
    else if Mover(step).Some? { WorkerKeepsFresh(s, lost, step); }
    else {
      CallsKeepValues(s, lost, step);
      MoverShape(s, step);
      ValuesKeepFresh(s, Apply(s, step), lost);
    }
  }

  ghost predicate StalesNowhere(s: State, steps: seq<Step>)
    requires CanRun(s, steps)
    decreases |steps|
  {
    steps == [] || (!Staling(s, steps[0]) && StalesNowhere(Apply(s, steps[0]), steps[1..]))
  }

  lemma {:induction false} FreshInRuns(s: State, lost: set<TaskId>, steps: seq<Step>)
    requires CanRun(s, steps) && Owned(s.store, s.ws, lost) && AllFresh(s) && StalesNowhere(s, steps)
    ensures AllFresh(After(s, steps))
    decreases |steps|
  {
    if steps != [] {
      StepStalesExactly(s, lost, steps[0]);
      StepKeepsOwned(s, lost, steps[0]);
      FreshInRuns(Apply(s, steps[0]), Lost(s, lost, steps[0]), steps[1..]);
    }
  }

  /** In every run from the start without such a report or arrival, each paused task is stored with its last reported
      progress, whatever the throttle held back while it ran. */
  lemma PausedFreshInRuns(cfg: Config, workers: nat, steps: seq<Step>)
    requires CanRun(Init(cfg, workers), steps) && StalesNowhere(Init(cfg, workers), steps)
    ensures PausedFresh(After(Init(cfg, workers), steps))
  {
    InitIsOwned(cfg, workers);
    FreshInRuns(Init(cfg, workers), {}, steps);
  }

  // ---------- progress and metadata along a run ----------

  /** The stored progress of `id` after a step that does not replace its record: a report that reaches the backend
      or the flush of a pause overwrites it. */
  function Followed(s: State, p: (int, int), step: Step, id: TaskId): (int, int)
    requires Enabled(s, step)
  {
    match step
    case DoLand(x, q) => if x == id then q else p
    case DoFlushCached(w) => if s.ws[w].task.id == id && s.ws[w].cached.Some? then s.ws[w].cached.value else p
    case _ => p
  }

  /** The last progress written for `id` in the run. */
  function FollowedAll(s: State, p: (int, int), steps: seq<Step>, id: TaskId): (int, int)
    requires CanRun(s, steps)
    decreases |steps|
  {
    if steps == [] then p else FollowedAll(Apply(s, steps[0]), Followed(s, p, steps[0], id), steps[1..], id)
  }

  function SavedMetadata(m: Blob, step: Step, id: TaskId): Blob {
    if step.DoSaveMetadata? && step.id == id then step.m else m
  }

  /** The last metadata saved for `id` in the run. */
  function SavedAll(m: Blob, steps: seq<Step>, id: TaskId): Blob
    decreases |steps|
  {
    if steps == [] then m else SavedAll(SavedMetadata(m, steps[0], id), steps[1..], id)
  }

  function ReportedNext(c: Option<(int, int)>, step: Step, id: TaskId): Option<(int, int)> {
    if step.DoReport? && step.id == id then Some(step.p) else c
  }

  /** The last value reported for `id` in the run. */
  function ReportedAll(c: Option<(int, int)>, steps: seq<Step>, id: TaskId): Option<(int, int)>
    decreases |steps|
  {
    if steps == [] then c else ReportedAll(ReportedNext(c, steps[0], id), steps[1..], id)
  }

  lemma {:induction false} CacheFollows(s: State, steps: seq<Step>, id: TaskId)
    requires CanRun(s, steps)
    ensures Reported(After(s, steps), id) == ReportedAll(Reported(s, id), steps, id)
    decreases |steps|
  {
    if steps != [] {
      if Mover(steps[0]).Some? { WorkersKeepReports(s, steps[0]); } else { CallsCache(s, steps[0], id); }
      CacheFollows(Apply(s, steps[0]), steps[1..], id);
    }
  }

  lemma CallsCache(s: State, step: Step, id: TaskId)
    requires Enabled(s, step) && Mover(step).None?
    ensures Reported(Apply(s, step), id) == ReportedNext(Reported(s, id), step, id)
  {
  }

  /** Worker `w` gives up its task. */
  predicate Parts(step: Step, w: nat) {
    (step.DoRecord? && step.w == w) || (step.DoReject? && step.w == w) || (step.DoAbandon? && step.w == w)
  }

  lemma HolderStays(s: State, step: Step, w: nat)
    requires Enabled(s, step) && w < |s.ws| && Holds(s.ws[w]) && !Parts(step, w)
    ensures w < |Apply(s, step).ws| && Holds(Apply(s, step).ws[w]) && Apply(s, step).ws[w].task == s.ws[w].task
  {
    if OnlyMoves(step) { MovesChangeOneWorker(s, step); } else { MoverShape(s, step); }
  }

  predicate Stores(s: Store, id: TaskId, p: (int, int), m: Blob) {
    id in s.tasks && s.tasks[id].progress == p && s.tasks[id].metadata == m
  }

  lemma WriterLeavesOthers(s: State, lost: set<TaskId>, step: Step, w: nat, p: (int, int), m: Blob)
    requires Enabled(s, step) && Owned(s.store, s.ws, lost) && w < |s.ws| && Holds(s.ws[w]) && !Parts(step, w)
    requires Stores(s.store, s.ws[w].task.id, p, m) && (step.DoRecord? || step.DoReject? || step.DoTake?)
    ensures Stores(Apply(s, step).store, s.ws[w].task.id, p, m)
  {
    if !step.DoTake? {
      SettleTouchesOne(s, lost, step);
      assert Holds(s.ws[step.w]);
    }
  }

  lemma FlushLeavesRest(s: State, lost: set<TaskId>, v: nat, w: nat, p: (int, int), m: Blob)
    requires Enabled(s, DoFlushCached(v)) && Owned(s.store, s.ws, lost) && w < |s.ws| && Holds(s.ws[w])
    requires Stores(s.store, s.ws[w].task.id, p, m)
    ensures var id := s.ws[w].task.id; Stores(FlushCached(s, v).store, id, Followed(s, p, DoFlushCached(v), id), m)
  {
    FlushWritesProgress(s, v);
  }

  /** What happens to other tasks leaves a held one alone. */
  ghost predicate KeepsRunning(s: Store, s': Store) {
    forall id :: id in s.tasks && s.tasks[id].status == Running ==> id in s'.tasks && s'.tasks[id] == s.tasks[id]
  }

  lemma TerminationKeepsRunning(s: State, step: Step)
    requires Enabled(s, step) && step.DoTerminateIdle?
    ensures KeepsRunning(s.store, Apply(s, step).store)
  {
  }

  lemma RemovalsKeepRunning(s: State, step: Step)
    requires Enabled(s, step) && (step.DoRemove? || step.DoCancelBatch?)
    ensures KeepsRunning(s.store, Apply(s, step).store)
  {
  }

  lemma SubmitKeepsRunning(s: State, step: Step)
    requires Enabled(s, step) && step.DoSubmit?
    ensures KeepsRunning(s.store, Apply(s, step).store)
  {
  }

  lemma StartKeepsRunning(s: State, step: Step)
    requires Enabled(s, step) && step.DoStart? && StoreSane(s.store)
    ensures KeepsRunning(s.store, Apply(s, step).store)
  {
  }

  lemma CallsLeaveHeld(s: State, lost: set<TaskId>, step: Step, w: nat, p: (int, int), m: Blob)
    requires Enabled(s, step) && Owned(s.store, s.ws, lost) && w < |s.ws| && Holds(s.ws[w])
    requires Stores(s.store, s.ws[w].task.id, p, m) && Mover(step).None?
    ensures var id := s.ws[w].task.id;
            Stores(Apply(s, step).store, id, Followed(s, p, step, id), SavedMetadata(m, step, id))
  {
    assert s.store.tasks[s.ws[w].task.id].status == Running;
    if step.DoTerminateIdle? { TerminationKeepsRunning(s, step); }
    else if step.DoRemove? || step.DoCancelBatch? { RemovalsKeepRunning(s, step); }
    else if step.DoSubmit? { SubmitKeepsRunning(s, step); }
    else if step.DoStart? { StartKeepsRunning(s, step); }
  }

  /** While a task is held, only reports reaching the backend, its pause's flush and metadata saves change its
      progress and metadata. */
  lemma HeldFieldsFollow(s: State, lost: set<TaskId>, step: Step, w: nat, p: (int, int), m: Blob)
    requires Enabled(s, step) && Owned(s.store, s.ws, lost) && w < |s.ws| && Holds(s.ws[w]) && !Parts(step, w)
    requires Stores(s.store, s.ws[w].task.id, p, m)
    ensures var id := s.ws[w].task.id;
            Stores(Apply(s, step).store, id, Followed(s, p, step, id), SavedMetadata(m, step, id))
  {
    if Mover(step).None? { CallsLeaveHeld(s, lost, step, w, p, m); }
    else if step.DoFlushCached? { FlushLeavesRest(s, lost, step.w, w, p, m); }
    else if TouchesTask(step) { WriterLeavesOthers(s, lost, step, w, p, m); }
    else { MoveLightens(s, step); }
  }

  lemma {:induction false} HeldFieldsFollowRuns(s: State, lost: set<TaskId>, steps: seq<Step>, w: nat, p: (int, int),
                                                m: Blob)
    requires CanRun(s, steps) && Owned(s.store, s.ws, lost) && w < |s.ws| && Holds(s.ws[w])
    requires Stores(s.store, s.ws[w].task.id, p, m) && forall k :: 0 <= k < |steps| ==> !Parts(steps[k], w)
    ensures var e, id := After(s, steps), s.ws[w].task.id;
            && Owned(e.store, e.ws, LostAfter(s, lost, steps)) && w < |e.ws| && e.ws[w].task == s.ws[w].task
            && Stores(e.store, id, FollowedAll(s, p, steps, id), SavedAll(m, steps, id))
    decreases |steps|
  {
    if steps != [] {
      var id := s.ws[w].task.id;
      HeldFieldsFollow(s, lost, steps[0], w, p, m);
      HolderStays(s, steps[0], w);
      StepKeepsOwned(s, lost, steps[0]);
      HeldFieldsFollowRuns(Apply(s, steps[0]), Lost(s, lost, steps[0]), steps[1..], w, Followed(s, p, steps[0], id),
                           SavedMetadata(m, steps[0], id));
    }
  }

  /** `id` is stored with its last report, if there is one. */
  predicate FreshAt(s: State, id: TaskId) {
    id in s.store.tasks && (id in s.progress ==> s.store.tasks[id].progress == s.progress[id])
  }

  /** From the moment a pause reads the cache to its final write, over every run in between: the task is paused with
      its last report if and only if the last value reported is the last one written, counting the pause's own
      flush. */
  lemma PauseIsFreshExactly(s: State, lost: set<TaskId>, w: nat, steps: seq<Step>, error: Blob, now: Time)
    requires Owned(s.store, s.ws, lost) && Enabled(s, DoReadCache(w)) && CanRun(ReadCache(s, w), steps)
    requires forall k :: 0 <= k < |steps| ==> !Parts(steps[k], w)
    requires WorkerAt(After(ReadCache(s, w), steps), w, Flushed)
    requires After(ReadCache(s, w), steps).ws[w].verdict == Intervene(Paused)
    ensures s.ws[w].task.id in s.store.tasks
    ensures StoredPaused(Record(After(ReadCache(s, w), steps), w, true, EMPTY, error, now), s.ws[w].task.id)
    ensures FreshAt(Record(After(ReadCache(s, w), steps), w, true, EMPTY, error, now), s.ws[w].task.id)
       <==> LastIsWritten(ReportedAll(Reported(s, s.ws[w].task.id), steps, s.ws[w].task.id),
                          FollowedAll(ReadCache(s, w), s.store.tasks[s.ws[w].task.id].progress, steps, s.ws[w].task.id))
  {
    var s1, id := ReadCache(s, w), s.ws[w].task.id;
    assert Holds(s.ws[w]);
    StepKeepsOwned(s, lost, DoReadCache(w));
    HeldFieldsFollowRuns(s1, lost, steps, w, s.store.tasks[id].progress, s.store.tasks[id].metadata);
    CacheFollows(s1, steps, id);
    assert Reported(s1, id) == Reported(s, id);
    PauseWrites(After(s1, steps), w, error, now);
  }

  /** Nothing was reported, or the last report is the value last written. */
  predicate LastIsWritten(reported: Option<(int, int)>, written: (int, int)) {
    reported.None? || reported.value == written
  }

  lemma PauseWrites(s: State, w: nat, error: Blob, now: Time)
    requires WorkerAt(s, w, Flushed) && s.ws[w].verdict == Intervene(Paused) && s.ws[w].task.id in s.store.tasks
    ensures var id, s' := s.ws[w].task.id, Record(s, w, true, EMPTY, error, now);
            StoredPaused(s', id) && s'.store.tasks[id].progress == s.store.tasks[id].progress
                && s'.progress == s.progress
  {
  }

  // ---------- continue, resume ----------

  /** `id` is paused, or continued and not yet claimed, with progress `p` and retry count `r`. */
  predicate Carries(s: State, id: TaskId, p: (int, int), r: int) {
    && id in s.store.tasks && (s.store.tasks[id].status == Paused || s.store.tasks[id].status == Pending)
    && s.store.tasks[id].progress == p && s.store.tasks[id].retries == r
  }

  lemma WritersCarry(s: State, lost: set<TaskId>, step: Step, id: TaskId, p: (int, int), r: int)
    requires Enabled(s, step) && Owned(s.store, s.ws, lost) && Carries(s, id, p, r)
    requires step.DoRecord? || step.DoReject?
    ensures Carries(Apply(s, step), id, p, r)
  {
    assert Holds(s.ws[step.w]);
    if step.DoRecord? { SettleWrites(s, s.ws[step.w], step.ok, step.result, step.error, step.now); }
  }

  /** Worker `step.w` claims `id` with this progress and retry count and the metadata now stored. */
  predicate ClaimsCopy(s: State, step: Step, id: TaskId, p: (int, int), r: int) {
    && Enabled(s, step) && step.DoTake? && step.id == id && id in s.store.tasks
    && var t := Apply(s, step).ws[step.w].task;
    t.progress == p && t.retries == r && t.metadata == s.store.tasks[id].metadata
  }

  predicate Claims(step: Step, id: TaskId) {
    step.DoTake? && step.id == id
  }

  /** The step claims the task as it is, or keeps it so. */
  predicate CarriesOn(s: State, step: Step, id: TaskId, p: (int, int), r: int)
    requires Enabled(s, step)
  {
    if Claims(step, id) then ClaimsCopy(s, step, id, p, r) else Carries(Apply(s, step), id, Followed(s, p, step, id), r)
  }

  lemma WorkersCarry(s: State, lost: set<TaskId>, step: Step, id: TaskId, p: (int, int), r: int)
    requires Enabled(s, step) && Owned(s.store, s.ws, lost) && Carries(s, id, p, r) && Mover(step).Some?
    ensures CarriesOn(s, step, id, p, r)
  {
    if step.DoRecord? || step.DoReject? { WritersCarry(s, lost, step, id, p, r); }
    else if step.DoFlushCached? {
      assert Holds(s.ws[step.w]);
      FlushWritesProgress(s, step.w);
    }
    else if !step.DoTake? { MoveLightens(s, step); }
  }

  lemma CallsCarry(s: State, lost: set<TaskId>, step: Step, id: TaskId, p: (int, int), r: int)
    requires Enabled(s, step) && Owned(s.store, s.ws, lost) && Carries(s, id, p, r) && !Drops(s, step, id)
    requires Mover(step).None?
    ensures Carries(Apply(s, step), id, Followed(s, p, step, id), r)
  {
    if step.DoSubmit? || step.DoStart? { QueueingCarries(s, lost, step, id, p, r); }
    else if step.DoTerminateIdle? || step.DoRemove? || step.DoCancelBatch? { WithdrawingCarries(s, step, id, p, r); }
  }

  lemma WithdrawingCarries(s: State, step: Step, id: TaskId, p: (int, int), r: int)
    requires Enabled(s, step) && Carries(s, id, p, r) && !Drops(s, step, id)
    requires step.DoTerminateIdle? || step.DoRemove? || step.DoCancelBatch?
    ensures Carries(Apply(s, step), id, p, r)
  {
  }

  lemma QueueingCarries(s: State, lost: set<TaskId>, step: Step, id: TaskId, p: (int, int), r: int)
    requires Enabled(s, step) && Owned(s.store, s.ws, lost) && Carries(s, id, p, r) && (step.DoSubmit? || step.DoStart?)
    ensures Carries(Apply(s, step), id, p, r)
  {
  }

  /** Between a pause and the next claim, with any other steps interleaved, the task keeps its retry count and, but for
      reports reaching the backend, its progress, unless a call gives it up; the claiming worker's copy has both, and
      the stored metadata. */
  lemma PauseSurvives(s: State, lost: set<TaskId>, step: Step, id: TaskId, p: (int, int), r: int)
    requires Enabled(s, step) && Owned(s.store, s.ws, lost) && Carries(s, id, p, r) && !Drops(s, step, id)
    ensures CarriesOn(s, step, id, p, r)
  {
    if Mover(step).Some? { WorkersCarry(s, lost, step, id, p, r); } else { CallsCarry(s, lost, step, id, p, r); }
  }

  /** The first claim of `id` in the run, if there is one, is made with the progress written by then, this retry count
      and the metadata then stored; until then the task carries them. */
  ghost predicate FirstClaimResumes(s: State, steps: seq<Step>, id: TaskId, p: (int, int), r: int)
    requires CanRun(s, steps)
    decreases |steps|
  {
    && Carries(s, id, p, r)
    && (steps != [] ==>
          if Claims(steps[0], id) then ClaimsCopy(s, steps[0], id, p, r)
          else FirstClaimResumes(Apply(s, steps[0]), steps[1..], id, Followed(s, p, steps[0], id), r))
  }

  lemma {:induction false} PauseSurvivesRuns(s: State, lost: set<TaskId>, steps: seq<Step>, id: TaskId,
                                             p: (int, int), r: int)
    requires CanRun(s, steps) && Owned(s.store, s.ws, lost) && Carries(s, id, p, r) && DropsNowhere(s, steps, id)
    ensures FirstClaimResumes(s, steps, id, p, r)
    decreases |steps|
  {
    if steps != [] {
      PauseSurvives(s, lost, steps[0], id, p, r);
      StepKeepsOwned(s, lost, steps[0]);
      if !Claims(steps[0], id) {
        PauseSurvivesRuns(Apply(s, steps[0]), Lost(s, lost, steps[0]), steps[1..], id, Followed(s, p, steps[0], id), r);
      }
    }
  }

  // ---------- what a retry keeps ----------

  /** An accepted retry enqueues the worker's copy, so it keeps the stored progress and metadata exactly when they
      are what the worker claimed. */
  lemma RetryKeepsExactly(s: State, lost: set<TaskId>, w: nat, result: Blob, error: Blob, now: Time)
    requires Owned(s.store, s.ws, lost) && WorkerAt(s, w, Judged) && s.ws[w].verdict.Retry?
    ensures var t := s.ws[w].task;
            var s' := Record(s, w, true, result, error, now);
            && t.id in s.store.tasks && t.id in s'.store.tasks
            && var a, b := s.store.tasks[t.id], s'.store.tasks[t.id];
            && (b.progress == a.progress && b.metadata == a.metadata
                <==> a.progress == t.progress && a.metadata == t.metadata)
            && b.status == Pending && b.retries == a.retries + 1
  {
    assert Holds(s.ws[w]);
  }

  /** From the claim to the retry, over every run in between: the retry keeps what was stored if and only if the
      last progress written and the last metadata saved since the claim are the claimed values. */
  lemma RetryKeepsRunsExactly(s: State, lost: set<TaskId>, w: nat, id: TaskId, now: Time, steps: seq<Step>,
                              result: Blob, error: Blob, later: Time)
    requires Owned(s.store, s.ws, lost) && Enabled(s, DoTake(w, id, now)) && CanRun(Take(s, w, id, now), steps)
    requires forall k :: 0 <= k < |steps| ==> !Parts(steps[k], w)
    requires var e := After(Take(s, w, id, now), steps); WorkerAt(e, w, Judged) && e.ws[w].verdict.Retry?
    ensures var s1 := Take(s, w, id, now);
            var e := After(s1, steps);
            var s' := Record(e, w, true, result, error, later);
            && id in s.store.tasks && id in e.store.tasks && id in s'.store.tasks
            && var t, a, b := s.store.tasks[id], e.store.tasks[id], s'.store.tasks[id];
            (b.progress == a.progress && b.metadata == a.metadata)
            <==> (FollowedAll(s1, t.progress, steps, id) == t.progress && SavedAll(t.metadata, steps, id) == t.metadata)
  {
    var s1 := Take(s, w, id, now);
    var t := s.store.tasks[id];
    StepKeepsOwned(s, lost, DoTake(w, id, now));
    HeldFieldsFollowRuns(s1, lost, steps, w, t.progress, t.metadata);
    RetryKeepsExactly(After(s1, steps), LostAfter(s1, lost, steps), w, result, error, later);
  }
}
