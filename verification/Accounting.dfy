/** The pool's counters against the task table (pool/engine.go, pool/metrics.go). */
module Accounting {
  import opened Tasks
  import opened StoreSpec
  import opened Engine
  import opened Ownership
  import opened Capacity

  // ---------- what each counter counts, in all runs ----------

  /** The step ends an execution by storing its task as `status`. */
  predicate Stores(s: State, step: Step, status: TaskStatus)
    requires Enabled(s, step)
  {
    && (step.DoRecord? || step.DoReject?)
    && StatusOf(Apply(s, step).store, s.ws[step.w].task.id) == Some(status)
  }

  function Bit(b: bool): int {
    if b then 1 else 0
  }

  /** The counters after a step that ends an execution as the given states say, or tracks a submit. */
  predicate Bumped(a: Stats, b: Stats, completes: bool, fails: bool, tracks: bool) {
    && b.completed == a.completed + Bit(completes) && b.failed == a.failed + Bit(fails)
    && b.submitted == a.submitted + Bit(tracks)
  }

  lemma SettlingBumps(s: State, lost: set<TaskId>, step: Step)
    requires Enabled(s, step) && Owned(s.store, s.ws, lost) && (step.DoRecord? || step.DoReject?)
    ensures Bumped(s.stats, Apply(s, step).stats, Stores(s, step, Completed), Stores(s, step, Failed), false)
  {
    assert Holds(s.ws[step.w]);
  }

  lemma OthersBumpNothing(s: State, step: Step)
    requires Enabled(s, step) && !step.DoRecord? && !step.DoReject?
    ensures Bumped(s.stats, Apply(s, step).stats, false, false, step.DoTrack?)
  {
    if OnlyMoves(step) { MovesKeepStatuses(s, step); }
  }

  /** In every reachable state, control calls included, a write counts as a completion exactly if it stores Completed
      and as a failure exactly if it stores Failed, a tracked submit as a submission, and no other step counts
      anything. */
  lemma StepCountsExactly(s: State, lost: set<TaskId>, step: Step)
    requires Enabled(s, step) && Owned(s.store, s.ws, lost)
    ensures Bumped(s.stats, Apply(s, step).stats, Stores(s, step, Completed), Stores(s, step, Failed), step.DoTrack?)
  {
    if step.DoRecord? || step.DoReject? { SettlingBumps(s, lost, step); } else { OthersBumpNothing(s, step); }
  }

  /** How many executions of a run ended with their task stored as `status`. */
  function Endings(s: State, steps: seq<Step>, status: TaskStatus): nat
    requires CanRun(s, steps)
    decreases |steps|
  {
    if steps == [] then 0
    else (if Stores(s, steps[0], status) then 1 else 0) + Endings(Apply(s, steps[0]), steps[1..], status)
  }

  function Trackings(steps: seq<Step>): nat {
    if steps == [] then 0 else (if steps[0].DoTrack? then 1 else 0) + Trackings(steps[1..])
  }

  /** Over every run whatsoever, the counters grow by the executions that ended as completed or failed, and by the
      tracked submits. */
  lemma {:induction false} CountersCountEndings(s: State, lost: set<TaskId>, steps: seq<Step>)
    requires CanRun(s, steps) && Owned(s.store, s.ws, lost)
    ensures var e := After(s, steps);
            && e.stats.completed == s.stats.completed + Endings(s, steps, Completed)
            && e.stats.failed == s.stats.failed + Endings(s, steps, Failed)
            && e.stats.submitted == s.stats.submitted + Trackings(steps)
    decreases |steps|
  {
    if steps != [] {
      StepCountsExactly(s, lost, steps[0]);
      StepKeepsOwned(s, lost, steps[0]);
      CountersCountEndings(Apply(s, steps[0]), Lost(s, lost, steps[0]), steps[1..]);
    }
  }

  // ---------- conservation in runs without control calls ----------

  /** Writing one task moves it between two state sets and changes no other. */
  lemma RewriteMoves(tasks: map<TaskId, Task>, id: TaskId, t: Task, status: TaskStatus)
    requires id in tasks
    ensures |InState(tasks[id := t], status)|
         == |InState(tasks, status)| + (if t.status == status then 1 else 0)
                                     - (if tasks[id].status == status then 1 else 0)
  {
    var a, b := InState(tasks, status), InState(tasks[id := t], status);
    assert b == if t.status == status then a + {id} else a - {id};
  }

  lemma InsertAdds(tasks: map<TaskId, Task>, id: TaskId, t: Task, status: TaskStatus)
    requires id !in tasks
    ensures |InState(tasks[id := t], status)| == |InState(tasks, status)| + (if t.status == status then 1 else 0)
  {
    var a, b := InState(tasks, status), InState(tasks[id := t], status);
    assert b == if t.status == status then a + {id} else a;
  }

  /** The steps of a run without control calls and without refused submits. */
  predicate Plain(step: Step) {
    match step
    case DoSubmit(_, ok) => ok
    case DoSignal(_, _) => false
    case DoTerminateIdle(_, _, _) => false
    case DoStart(_, _) => false
    case DoRemove(_) => false
    case DoCancelBatch(_) => false
    case _ => true
  }

  ghost predicate NoInterventions(s: State) {
    && s.ctl.signals == map[]
    && (forall i :: 0 <= i < |s.ws| && s.ws[i].pc == Judged ==> !s.ws[i].verdict.Intervene?)
    && (forall i :: 0 <= i < |s.ws| ==> s.ws[i].pc != Cached && s.ws[i].pc != Flushed)
  }

  /** The counters are the sizes of the corresponding parts of the table; a submit that is not yet tracked is not yet
      counted. */
  ghost predicate CountersExact(s: State) {
    && s.stats.submitted + |s.untracked| == |s.store.tasks|
    && s.stats.completed == |InState(s.store.tasks, Completed)|
    && s.stats.failed == |InState(s.store.tasks, Failed)|
    && (forall id :: id in s.store.tasks ==>
          s.store.tasks[id].status != Paused && s.store.tasks[id].status != Cancelled)
  }

  lemma PlainStepsSignalNothing(s: State, step: Step)
    requires Enabled(s, step) && Plain(step) && s.ctl.signals == map[]
    ensures Apply(s, step).ctl.signals == map[]
  {
  }

  lemma StepKeepsNoInterventions(s: State, step: Step)
    requires Enabled(s, step) && Plain(step) && NoInterventions(s)
    ensures NoInterventions(Apply(s, step))
  {
    PlainStepsSignalNothing(s, step);
    MoverShape(s, step);
  }

  lemma SubmitCounts(s: State, t: Task)
    requires Submittable(s, t) && CountersExact(s)
    ensures CountersExact(Submit(s, t, true))
  {
    var s' := Submit(s, t, true);
    assert s'.store.tasks == s.store.tasks[t.id := t];
    InsertAdds(s.store.tasks, t.id, t, Completed);
    InsertAdds(s.store.tasks, t.id, t, Failed);
  }

  lemma TrackCounts(s: State, b: BatchId)
    requires b in s.untracked && CountersExact(s)
    ensures CountersExact(Track(s, b))
  {
    assert s.untracked == (s.untracked - multiset{b}) + multiset{b};
  }

  /** A write on a running task changes the counters as its new status says. */
  lemma WriteCounts(s: State, s': State, id: TaskId)
    requires CountersExact(s) && id in s.store.tasks && s.store.tasks[id].status == Running
    requires s'.store.tasks.Keys == s.store.tasks.Keys
    requires forall y :: y in s.store.tasks && y != id ==> s'.store.tasks[y] == s.store.tasks[y]
    requires var status := s'.store.tasks[id].status;
             && status != Paused && status != Cancelled
             && s'.stats.submitted == s.stats.submitted && s'.untracked == s.untracked
             && s'.stats.completed == s.stats.completed + (if status == Completed then 1 else 0)
             && s'.stats.failed == s.stats.failed + (if status == Failed then 1 else 0)
    ensures CountersExact(s')
  {
    var t := s'.store.tasks[id];
    assert s'.store.tasks == s.store.tasks[id := t];
    assert s'.store.tasks.Keys == s.store.tasks.Keys;
    SizeIsKeys(s.store.tasks);
    SizeIsKeys(s'.store.tasks);
    RewriteMoves(s.store.tasks, id, t, Completed);
    RewriteMoves(s.store.tasks, id, t, Failed);
  }

  lemma SizeIsKeys(tasks: map<TaskId, Task>)
    ensures |tasks| == |tasks.Keys|
  {
  }

  /** The write of a judged or unknown task bumps the counter of the state it writes. */
  lemma TallyMatchesStatus(s: State, lost: set<TaskId>, step: Step)
    requires Enabled(s, step) && Owned(s.store, s.ws, lost) && NoInterventions(s) && (step.DoRecord? || step.DoReject?)
    ensures var s' := Apply(s, step);
            var id := s.ws[step.w].task.id;
            && id in s.store.tasks && s.store.tasks[id].status == Running && id in s'.store.tasks
            && var status := s'.store.tasks[id].status;
            && status != Paused && status != Cancelled
            && s'.stats.submitted == s.stats.submitted && s'.untracked == s.untracked
            && s'.stats.completed == s.stats.completed + (if status == Completed then 1 else 0)
            && s'.stats.failed == s.stats.failed + (if status == Failed then 1 else 0)
  {
    assert Holds(s.ws[step.w]);
  }

  lemma SettlingCounts(s: State, lost: set<TaskId>, step: Step)
    requires Enabled(s, step) && Owned(s.store, s.ws, lost) && NoInterventions(s) && CountersExact(s)
    requires step.DoRecord? || step.DoReject?
    ensures CountersExact(Apply(s, step))
  {
    var x := s.ws[step.w];
    assert Holds(x);
    TallyMatchesStatus(s, lost, step);
    SettleTouchesOne(s, lost, step);
    WriteCounts(s, Apply(s, step), x.task.id);
  }

  /** Every other plain step leaves the counters and every task's status alone, but for a claim. */
  lemma OthersKeepStatuses(s: State, step: Step)
    requires Enabled(s, step) && Plain(step) && !step.DoSubmit? && !step.DoTrack? && !step.DoRecord? && !step.DoReject?
    ensures StatusesKept(s, Apply(s, step))
  {
    if WritesFields(step) { FieldWritesKeepRecords(s, step); }
    else if OnlyMoves(step) { MovesKeepStatuses(s, step); }
  }

  ghost predicate StatusesKept(s: State, s': State) {
    && s'.stats == s.stats && s'.untracked == s.untracked && s'.store.tasks.Keys == s.store.tasks.Keys
    && forall id :: id in s.store.tasks ==>
         || s'.store.tasks[id].status == s.store.tasks[id].status
         || (s.store.tasks[id].Live() && s'.store.tasks[id].status == Running)
  }

  lemma MovesKeepStatuses(s: State, step: Step)
    requires Enabled(s, step) && OnlyMoves(step)
    ensures Apply(s, step).stats == s.stats && Apply(s, step).untracked == s.untracked
    ensures Apply(s, step).store == s.store
  {
  }

  lemma OthersCount(s: State, s': State)
    requires CountersExact(s) && StatusesKept(s, s')
    ensures CountersExact(s')
  {
    SizeIsKeys(s.store.tasks);
    SizeIsKeys(s'.store.tasks);
    assert InState(s'.store.tasks, Completed) == InState(s.store.tasks, Completed);
    assert InState(s'.store.tasks, Failed) == InState(s.store.tasks, Failed);
  }

  lemma StepKeepsCounters(s: State, lost: set<TaskId>, step: Step)
    requires Enabled(s, step) && Plain(step) && Owned(s.store, s.ws, lost) && NoInterventions(s) && CountersExact(s)
    ensures CountersExact(Apply(s, step))
  {
    if step.DoSubmit? { SubmitCounts(s, step.t); }
    else if step.DoTrack? { TrackCounts(s, step.b); }
    else if step.DoRecord? || step.DoReject? { SettlingCounts(s, lost, step); }
    else {
      OthersKeepStatuses(s, step);
      OthersCount(s, Apply(s, step));
    }
  }

  lemma {:induction false} CountersInRuns(s: State, lost: set<TaskId>, steps: seq<Step>)
    requires CanRun(s, steps) && Owned(s.store, s.ws, lost) && NoInterventions(s) && CountersExact(s)
    requires forall k :: 0 <= k < |steps| ==> Plain(steps[k])
    ensures CountersExact(After(s, steps))
    ensures forall id :: id in After(s, steps).store.tasks ==> After(s, steps).store.tasks[id].status != Retrying
    decreases |steps|
  {
    if steps != [] {
      StepKeepsCounters(s, lost, steps[0]);
      StepKeepsNoInterventions(s, steps[0]);
      StepKeepsOwned(s, lost, steps[0]);
      CountersInRuns(Apply(s, steps[0]), Lost(s, lost, steps[0]), steps[1..]);
    }
  }

  lemma Disjoint5(a: set<TaskId>, b: set<TaskId>, c: set<TaskId>, d: set<TaskId>, e: set<TaskId>)
    requires a !! b && (a + b) !! c && (a + b + c) !! d && (a + b + c + d) !! e
    ensures |a + b + c + d + e| == |a| + |b| + |c| + |d| + |e|
  {}

  lemma KeysSplit(tasks: map<TaskId, Task>)
    requires forall id :: id in tasks ==>
               tasks[id].status != Cancelled && tasks[id].status != Retrying && tasks[id].status != Paused
    ensures tasks.Keys == InState(tasks, Pending) + InState(tasks, Delayed) + InState(tasks, Running)
                        + InState(tasks, Completed) + InState(tasks, Failed)
  {
    forall id | id in tasks
      ensures tasks[id].status in {Pending, Delayed, Running, Completed, Failed}
    {
      var st := tasks[id].status;
      assert st == Pending || st == Delayed || st == Running || st == Completed || st == Failed;
    }
  }

  /** A table splits by state. */
  lemma TableSplits(tasks: map<TaskId, Task>)
    requires forall id :: id in tasks ==>
               tasks[id].status != Cancelled && tasks[id].status != Retrying && tasks[id].status != Paused
    ensures |tasks| == |InState(tasks, Pending)| + |InState(tasks, Delayed)| + |InState(tasks, Running)|
                     + |InState(tasks, Completed)| + |InState(tasks, Failed)|
  {
    KeysSplit(tasks);
    Disjoint5(InState(tasks, Pending), InState(tasks, Delayed), InState(tasks, Running), InState(tasks, Completed),
              InState(tasks, Failed));
    SizeIsKeys(tasks);
  }

  /** Conservation: in runs without control calls and refused submits, the submissions counted and those about to be
      are the completed, failed, pending, delayed and running tasks. */
  lemma SubmissionsAreConserved(cfg: Config, workers: nat, steps: seq<Step>)
    requires CanRun(Init(cfg, workers), steps) && forall k :: 0 <= k < |steps| ==> Plain(steps[k])
    ensures var e := After(Init(cfg, workers), steps);
            e.stats.submitted + |e.untracked| == e.stats.completed + e.stats.failed + |InState(e.store.tasks, Pending)|
                               + |InState(e.store.tasks, Delayed)| + |InState(e.store.tasks, Running)|
  {
    var s := Init(cfg, workers);
    InitIsOwned(cfg, workers);
    assert InState(s.store.tasks, Completed) == {} && InState(s.store.tasks, Failed) == {};
    CountersInRuns(s, {}, steps);
    TableSplits(After(s, steps).store.tasks);
  }
}
