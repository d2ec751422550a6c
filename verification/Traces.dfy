/** What the pool's shared maps say about the run that led to them: each entry is determined by the last steps that
    concern its id (pool/engine.go, pool/progress.go). */
module Traces {
  import opened Tasks
  import opened StoreSpec
  import opened Engine
  import opened Ownership
  import opened Capacity

  function Entry<V>(m: map<TaskId, V>, id: TaskId): Option<V> {
    if id in m then Some(m[id]) else None
  }

  /** For one id: the intent not yet consumed by a check, the cancel function registered last and not unregistered, and
      the progress reported last; for the pool: the cancel functions called, and whether it was stopped. */
  datatype Trace = Trace(intent: Option<TaskStatus>, listed: Option<nat>, reported: Option<(int, int)>,
                         called: set<nat>, stopped: bool)

  function TraceOf(s: State, id: TaskId): Trace {
    Trace(Entry(s.ctl.signals, id), Entry(s.ctl.registry, id), Entry(s.progress, id), s.ctl.cancelled, s.stopped)
  }

  /** What a step adds to the trace of `id`. */
  function Traced(s: State, t: Trace, step: Step, id: TaskId): Trace
    requires Enabled(s, step)
  {
    match step
    case DoSignal(x, status) => if x == id then t.(intent := Some(status)) else t
    case DoJudge(w) => if s.ws[w].task.id == id then t.(intent := None) else t
    case DoRegister(w) => if s.ws[w].task.id == id then t.(listed := Some(s.ctl.next)) else t
    case DoUnlist(w) => if s.ws[w].task.id == id then t.(listed := None) else t
    case DoReport(x, p, _) => if x == id then t.(reported := Some(p)) else t
    case DoDeliver(token) => t.(called := t.called + {token})
    case DoShutdown => t.(stopped := true)
    case _ => t
  }

  function TracedAfter(s: State, t: Trace, steps: seq<Step>, id: TaskId): Trace
    requires CanRun(s, steps)
    decreases |steps|
  {
    if steps == [] then t else TracedAfter(Apply(s, steps[0]), Traced(s, t, steps[0], id), steps[1..], id)
  }

  /** The steps that write one of the traced maps. */
  predicate Leaves(step: Step) {
    || step.DoSignal? || step.DoJudge? || step.DoRegister? || step.DoUnlist? || step.DoReport? || step.DoDeliver?
    || step.DoShutdown?
  }

  lemma OthersLeaveNoTrace(s: State, step: Step, id: TaskId)
    requires Enabled(s, step) && !Leaves(step)
    ensures TraceOf(Apply(s, step), id) == TraceOf(s, id)
  {
  }

  lemma StepIsTraced(s: State, step: Step, id: TaskId)
    requires Enabled(s, step)
    ensures TraceOf(Apply(s, step), id) == Traced(s, TraceOf(s, id), step, id)
  {
    if !Leaves(step) { OthersLeaveNoTrace(s, step, id); }
  }

  /** After every run, an id has an intent exactly if it was signalled and not checked since, and it is the last one; it
      is registered exactly if an execution of it registered and none unregistered since; its cached progress is the
      last one reported; exactly the delivered cancel functions were called; and the pool is stopped exactly if Stop was
      called. */
  lemma {:induction false} RunsAreTraced(s: State, steps: seq<Step>, id: TaskId)
    requires CanRun(s, steps)
    ensures TraceOf(After(s, steps), id) == TracedAfter(s, TraceOf(s, id), steps, id)
    decreases |steps|
  {
    if steps != [] {
      StepIsTraced(s, steps[0], id);
      RunsAreTraced(Apply(s, steps[0]), steps[1..], id);
    }
  }

  // ---------- work in progress ----------

  /** How many more of these writes a step puts under way. */
  function Started(step: Step, x: Write): int {
    match step
    case DoReport(id, p, flush) => if flush && x == Write(id, p) then 1 else 0
    case DoLand(id, p) => if x == Write(id, p) then -1 else 0
    case _ => 0
  }

  function StartedIn(steps: seq<Step>, x: Write): int {
    if steps == [] then 0 else Started(steps[0], x) + StartedIn(steps[1..], x)
  }

  function Queued(step: Step, b: BatchId): int {
    match step
    case DoSubmit(t, ok) => if ok && t.batch == b then 1 else 0
    case DoTrack(x) => if x == b then -1 else 0
    case _ => 0
  }

  function QueuedIn(steps: seq<Step>, b: BatchId): int {
    if steps == [] then 0 else Queued(steps[0], b) + QueuedIn(steps[1..], b)
  }

  lemma OthersStartNothing(s: State, step: Step)
    requires Enabled(s, step) && !step.DoReport? && !step.DoLand? && !step.DoSubmit? && !step.DoTrack?
    ensures Apply(s, step).inflight == s.inflight && Apply(s, step).untracked == s.untracked
  {
  }

  lemma StepStarts(s: State, step: Step, x: Write, b: BatchId)
    requires Enabled(s, step)
    ensures Apply(s, step).inflight[x] == s.inflight[x] + Started(step, x)
    ensures Apply(s, step).untracked[b] == s.untracked[b] + Queued(step, b)
  {
    if !step.DoReport? && !step.DoLand? && !step.DoSubmit? && !step.DoTrack? { OthersStartNothing(s, step); }
  }

  /** Every flushed report reaches the backend at most once and is under way until then; every accepted submit is
      tracked at most once and untracked until then. */
  lemma {:induction false} NothingIsDoneTwice(s: State, steps: seq<Step>, x: Write, b: BatchId)
    requires CanRun(s, steps)
    ensures After(s, steps).inflight[x] == s.inflight[x] + StartedIn(steps, x)
    ensures After(s, steps).untracked[b] == s.untracked[b] + QueuedIn(steps, b)
    decreases |steps|
  {
    if steps != [] {
      StepStarts(s, steps[0], x, b);
      NothingIsDoneTwice(Apply(s, steps[0]), steps[1..], x, b);
    }
  }

  // ---------- callbacks ----------

  /** The callback lists exactly the tasks stored for the batch, each in its stored state. */
  ghost predicate Lists(s: Store, f: Firing) {
    && (forall id :: id in f.results <==> id in s.tasks && s.tasks[id].batch == f.batch)
    && (forall id :: id in f.results ==> f.results[id] == s.tasks[id].status)
  }

  /** A callback is made exactly by a worker that counted its batch's last task, and only with something to list. */
  ghost predicate Reports(s: State, step: Step, before: seq<Firing>, after: seq<Firing>)
    requires Enabled(s, step)
  {
    if step.DoFire? && exists id :: id in s.store.tasks && s.store.tasks[id].batch == s.ws[step.w].task.batch
    then |after| == |before| + 1 && after[..|before|] == before && Lists(s.store, after[|before|])
         && after[|before|].batch == s.ws[step.w].task.batch
    else after == before
  }

  lemma OthersReportNothing(s: State, step: Step)
    requires Enabled(s, step) && !step.DoFire?
    ensures Apply(s, step).fired == s.fired
  {
  }

  lemma CallbacksReportExactly(s: State, step: Step)
    requires Enabled(s, step)
    ensures Reports(s, step, s.fired, Apply(s, step).fired)
  {
    if step.DoFire? {
      var b := s.ws[step.w].task.batch;
      if id :| id in s.store.tasks && s.store.tasks[id].batch == b {
        assert id in BatchResults(s.store, b);
      } else {
        assert BatchResults(s.store, b) == map[];
      }
    } else {
      OthersReportNothing(s, step);
    }
  }

  /** Without a registered callback nothing is counted and nobody is called back, in any run. */
  predicate Uncounted(s: State) {
    !s.cfg.batchCallback && s.batches == map[] && s.fired == [] && forall i :: 0 <= i < |s.ws| ==> !s.ws[i].fire
  }

  lemma StepKeepsUncounted(s: State, step: Step)
    requires Enabled(s, step) && Uncounted(s)
    ensures Uncounted(Apply(s, step))
  {
    MoverShape(s, step);
  }

  lemma {:induction false} UncountedInRuns(s: State, steps: seq<Step>)
    requires CanRun(s, steps) && Uncounted(s)
    ensures Uncounted(After(s, steps))
    decreases |steps|
  {
    if steps != [] {
      StepKeepsUncounted(s, steps[0]);
      UncountedInRuns(Apply(s, steps[0]), steps[1..]);
    }
  }
}
