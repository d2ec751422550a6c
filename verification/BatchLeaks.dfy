/** What the batch count gains and loses over any run (pool/engine.go): a conservation law for one batch, and from
    it the exact condition under which a count calls back.

    An activation of a task (its submit, or a start that queues it again) is open while the task waits in the
    queue, is held by a worker, or is about to be counted. It ends counted, missed (counted before its batch has
    a counter) or dropped (withdrawn while waiting, abandoned at the semaphore, or refused by a retry's Enqueue). */
module BatchLeaks {
  import opened Tasks
  import opened StoreSpec
  import opened Engine
  import opened Ownership
  import opened Capacity
  import opened Batches

  /** History of one batch. */
  datatype Book = Book(missed: nat, dropped: nat, restarted: nat)

  /** Waiting in the queue, so that a worker will take it when it is due. */
  predicate Awaits(s: Store, b: BatchId, id: TaskId) {
    id in s.queue && id in s.tasks && s.tasks[id].Live() && s.tasks[id].batch == b
  }

  ghost function Waiting(s: Store, b: BatchId): (r: set<TaskId>)
    ensures forall id :: id in r <==> Awaits(s, b, id)
  {
    set id | id in s.queue && Awaits(s, b, id)
  }

  /** Holding a task of the batch, or about to count one. */
  function EngagedIn(b: BatchId): Worker -> bool {
    x => (Holds(x) || x.pc == Recorded) && x.task.batch == b
  }

  ghost function Open(s: State, b: BatchId): nat {
    |Waiting(s.store, b)| + Count(s.ws, EngagedIn(b))
  }

  function Is1(p: bool): nat {
    if p then 1 else 0
  }

  ghost function Posted(s: State, b: BatchId, l: Book, step: Step): Book
    requires Enabled(s, step)
  {
    match step
    case DoCount(w) => l.(missed := l.missed + Is1(s.ws[w].task.batch == b && b !in s.batches))
    case DoRecord(w, ok, _, _, _) =>
      l.(dropped := l.dropped + Is1(s.ws[w].task.batch == b && s.ws[w].verdict.Retry? && !ok))
    case DoAbandon(w) => l.(dropped := l.dropped + Is1(s.ws[w].task.batch == b))
    case DoTerminateIdle(id, _, _) => l.(dropped := l.dropped + Is1(Awaits(s.store, b, id)))
    case DoRemove(id) => l.(dropped := l.dropped + Is1(Awaits(s.store, b, id)))
    case DoCancelBatch(_) => l.(dropped := l.dropped + |Waiting(s.store, b)|)
    case DoStart(id, ok) =>
      l.(restarted := l.restarted + Is1(ok && s.store.tasks[id].batch == b && !Awaits(s.store, b, id)))
    case _ => l
  }

  function CounterOf(s: State, b: BatchId): BatchCounter {
    if b in s.batches then s.batches[b] else BatchCounter(0, 0)
  }

  /** Submits and restarts on one side, what became of them on the other. */
  ghost predicate Balanced(s: State, b: BatchId, l: Book) {
    CounterOf(s, b).total + s.untracked[b] + l.restarted == CounterOf(s, b).done + l.missed + l.dropped + Open(s, b)
  }

  // ---------- the waiting set ----------

  lemma OneTaskChanges(s: Store, s': Store, b: BatchId, id: TaskId)
    requires forall y :: y != id ==> (Awaits(s', b, y) <==> Awaits(s, b, y))
    ensures |Waiting(s', b)| + Is1(Awaits(s, b, id)) == |Waiting(s, b)| + Is1(Awaits(s', b, id))
  {
    var a, c := Waiting(s, b), Waiting(s', b);
    forall y ensures y in c - {id} <==> y in a - {id} {
      assert y != id ==> (y in c <==> y in a);
    }
    Without(a, id);
    Without(c, id);
    assert c - {id} == a - {id};
  }

  lemma Without(a: set<TaskId>, id: TaskId)
    ensures |a| == |a - {id}| + Is1(id in a)
  {
    if id in a { assert a == (a - {id}) + {id}; } else { assert a == a - {id}; }
  }

  lemma SameWaiting(s: Store, s': Store, b: BatchId)
    requires forall y :: Awaits(s', b, y) <==> Awaits(s, b, y)
    ensures Waiting(s', b) == Waiting(s, b)
  {
  }

  // ---------- worker steps ----------

  lemma MovesStayEngaged(s: State, b: BatchId, step: Step)
    requires Enabled(s, step) && OnlyMoves(step) && !step.DoCount?
    ensures Apply(s, step).batches == s.batches && Apply(s, step).untracked == s.untracked
    ensures step.w < |s.ws| == |Apply(s, step).ws|
    ensures EngagedIn(b)(Apply(s, step).ws[step.w]) == EngagedIn(b)(s.ws[step.w])
  {
    MovesChangeOneWorker(s, step);
    MovesCountNothing(s, step);
  }

  lemma MovesCountNothing(s: State, step: Step)
    requires Enabled(s, step) && OnlyMoves(step) && !step.DoCount?
    ensures Apply(s, step).batches == s.batches && Apply(s, step).untracked == s.untracked
    ensures step.w < |Apply(s, step).ws| && Apply(s, step).ws[step.w].pc != Recorded && s.ws[step.w].pc != Recorded
  {
  }

  lemma MovesKeepBalance(s: State, b: BatchId, l: Book, step: Step)
    requires Balanced(s, b, l) && Enabled(s, step) && OnlyMoves(step) && !step.DoCount?
    ensures Balanced(Apply(s, step), b, l)
  {
    MovesChangeOneWorker(s, step);
    MovesStayEngaged(s, b, step);
    CountUpdate(s.ws, EngagedIn(b), step.w, Apply(s, step).ws[step.w]);
  }

  lemma TakeKeepsBalance(s: State, lost: set<TaskId>, b: BatchId, l: Book, step: Step)
    requires Balanced(s, b, l) && Enabled(s, step) && Owned(s.store, s.ws, lost) && step.DoTake?
    ensures Balanced(Apply(s, step), b, l)
  {
    var s' := Apply(s, step);
    OneTaskChanges(s.store, s'.store, b, step.id);
    CountUpdate(s.ws, EngagedIn(b), step.w, s'.ws[step.w]);
  }

  lemma AbandonKeepsBalance(s: State, b: BatchId, l: Book, w: nat)
    requires Balanced(s, b, l) && Enabled(s, DoAbandon(w))
    ensures Balanced(Abandon(s, w), b, Posted(s, b, l, DoAbandon(w)))
  {
    CountUpdate(s.ws, EngagedIn(b), w, Abandon(s, w).ws[w]);
  }

  lemma CountKeepsBalance(s: State, b: BatchId, l: Book, w: nat)
    requires Balanced(s, b, l) && WorkerAt(s, w, Recorded) && b != NO_BATCH && s.cfg.batchCallback
    ensures Balanced(CountBatch(s, w), b, Posted(s, b, l, DoCount(w)))
  {
    CountUpdate(s.ws, EngagedIn(b), w, CountBatch(s, w).ws[w]);
  }

  /** After the final write only an accepted retry leaves the task waiting; otherwise the worker is about to count
      it, unless a retry was refused. */
  lemma SettlingEffect(s: State, lost: set<TaskId>, b: BatchId, step: Step)
    requires Enabled(s, step) && Owned(s.store, s.ws, lost) && (step.DoRecord? || step.DoReject?)
    ensures var s', x := Apply(s, step), s.ws[step.w];
            var id, mine := x.task.id, x.task.batch == b;
            && s'.ws == s.ws[step.w := s'.ws[step.w]] && s'.batches == s.batches && s'.untracked == s.untracked
            && !Awaits(s.store, b, id) && EngagedIn(b)(x) == mine
            && (if step.DoRecord? && x.verdict.Retry?
                then !EngagedIn(b)(s'.ws[step.w]) && (Awaits(s'.store, b, id) <==> mine && step.ok)
                else EngagedIn(b)(s'.ws[step.w]) == mine && !Awaits(s'.store, b, id))
  {
    assert Holds(s.ws[step.w]);
  }

  lemma SettlingFrame(s: State, lost: set<TaskId>, b: BatchId, step: Step, y: TaskId)
    requires Enabled(s, step) && Owned(s.store, s.ws, lost) && (step.DoRecord? || step.DoReject?)
    requires y != s.ws[step.w].task.id
    ensures Awaits(Apply(s, step).store, b, y) <==> Awaits(s.store, b, y)
  {
  }

  lemma SettlingKeepsBalance(s: State, lost: set<TaskId>, b: BatchId, l: Book, step: Step)
    requires Balanced(s, b, l) && Enabled(s, step) && Owned(s.store, s.ws, lost) && (step.DoRecord? || step.DoReject?)
    ensures Balanced(Apply(s, step), b, Posted(s, b, l, step))
  {
    var s', id := Apply(s, step), s.ws[step.w].task.id;
    SettlingEffect(s, lost, b, step);
    forall y | y != id ensures Awaits(s'.store, b, y) <==> Awaits(s.store, b, y) { SettlingFrame(s, lost, b, step, y); }
    OneTaskChanges(s.store, s'.store, b, id);
    CountUpdate(s.ws, EngagedIn(b), step.w, s'.ws[step.w]);
  }

  lemma FlushKeepsBalance(s: State, b: BatchId, l: Book, w: nat)
    requires Balanced(s, b, l) && Enabled(s, DoFlushCached(w)) && StoreSane(s.store)
    ensures Balanced(FlushCached(s, w), b, l)
  {
    var s' := FlushCached(s, w);
    FlushWritesProgress(s, w);
    SameWaiting(s.store, s'.store, b);
    CountUpdate(s.ws, EngagedIn(b), w, s'.ws[w]);
  }

  // ---------- calls ----------

  lemma SubmitKeepsBalance(s: State, lost: set<TaskId>, b: BatchId, l: Book, t: Task, ok: bool)
    requires Balanced(s, b, l) && Submittable(s, t) && Owned(s.store, s.ws, lost)
    ensures Balanced(Submit(s, t, ok), b, l)
  {
    OneTaskChanges(s.store, Submit(s, t, ok).store, b, t.id);
  }

  lemma TrackKeepsBalance(s: State, b: BatchId, l: Book, x: BatchId)
    requires Balanced(s, b, l) && x in s.untracked && b != NO_BATCH && s.cfg.batchCallback
    ensures Balanced(Track(s, x), b, l)
  {
  }

  lemma StartKeepsBalance(s: State, lost: set<TaskId>, b: BatchId, l: Book, id: TaskId, ok: bool)
    requires Balanced(s, b, l) && Startable(s, id) && Owned(s.store, s.ws, lost)
    ensures Balanced(Start(s, id, ok), b, Posted(s, b, l, DoStart(id, ok)))
  {
    OneTaskChanges(s.store, Start(s, id, ok).store, b, id);
  }

  lemma TerminateKeepsBalance(s: State, b: BatchId, l: Book, id: TaskId, error: Blob, now: Time)
    requires Balanced(s, b, l) && TerminableIdle(s, id)
    ensures Balanced(TerminateIdle(s, id, error, now), b, Posted(s, b, l, DoTerminateIdle(id, error, now)))
  {
    OneTaskChanges(s.store, TerminateIdle(s, id, error, now).store, b, id);
  }

  lemma RemoveKeepsBalance(s: State, b: BatchId, l: Book, id: TaskId)
    requires Balanced(s, b, l) && Erasable(s, id)
    ensures Balanced(Remove(s, id), b, Posted(s, b, l, DoRemove(id)))
  {
    OneTaskChanges(s.store, Remove(s, id).store, b, id);
  }

  /** The memory backend's CancelBatch leaves no batch with a waiting task. */
  lemma CancelKeepsBalance(s: State, b: BatchId, l: Book, x: BatchId)
    requires Balanced(s, b, l)
    ensures Balanced(CancelBatch(s, x), b, Posted(s, b, l, DoCancelBatch(x)))
  {
    assert Waiting(CancelBatch(s, x).store, b) == {};
  }

  lemma FieldWritesKeepBalance(s: State, b: BatchId, l: Book, step: Step)
    requires Balanced(s, b, l) && Enabled(s, step) && WritesFields(step)
    ensures Balanced(Apply(s, step), b, l)
  {
    FieldWritesKeepRecords(s, step);
    SameWaiting(s.store, Apply(s, step).store, b);
    CallsTouchNoBatch(s, step);
  }

  // ---------- every run ----------

  lemma WorkerKeepsBalance(s: State, lost: set<TaskId>, b: BatchId, l: Book, step: Step)
    requires Balanced(s, b, l) && Enabled(s, step) && Owned(s.store, s.ws, lost) && Mover(step).Some?
    requires b != NO_BATCH && s.cfg.batchCallback
    ensures Balanced(Apply(s, step), b, Posted(s, b, l, step))
  {
    if step.DoTake? { TakeKeepsBalance(s, lost, b, l, step); }
    else if step.DoAbandon? { AbandonKeepsBalance(s, b, l, step.w); }
    else if step.DoReject? || step.DoRecord? { SettlingKeepsBalance(s, lost, b, l, step); }
    else if step.DoCount? { CountKeepsBalance(s, b, l, step.w); }
    else if step.DoFlushCached? { FlushKeepsBalance(s, b, l, step.w); }
    else { MovesKeepBalance(s, b, l, step); }
  }

  lemma CallKeepsBalance(s: State, lost: set<TaskId>, b: BatchId, l: Book, step: Step)
    requires Balanced(s, b, l) && Enabled(s, step) && Owned(s.store, s.ws, lost) && Mover(step).None?
    requires b != NO_BATCH && s.cfg.batchCallback
    ensures Balanced(Apply(s, step), b, Posted(s, b, l, step))
  {
    match step
    case DoSubmit(t, ok) => SubmitKeepsBalance(s, lost, b, l, t, ok);
    case DoTrack(x) => TrackKeepsBalance(s, b, l, x);
    case DoStart(id, ok) => StartKeepsBalance(s, lost, b, l, id, ok);
    case DoTerminateIdle(id, error, now) => TerminateKeepsBalance(s, b, l, id, error, now);
    case DoRemove(id) => RemoveKeepsBalance(s, b, l, id);
    case DoCancelBatch(x) => CancelKeepsBalance(s, b, l, x);
    case _ => FieldWritesKeepBalance(s, b, l, step);
  }

  lemma StepKeepsBalance(s: State, lost: set<TaskId>, b: BatchId, l: Book, step: Step)
    requires Balanced(s, b, l) && Enabled(s, step) && Owned(s.store, s.ws, lost)
    requires b != NO_BATCH && s.cfg.batchCallback
    ensures Balanced(Apply(s, step), b, Posted(s, b, l, step))
  {
    if Mover(step).Some? { WorkerKeepsBalance(s, lost, b, l, step); } else { CallKeepsBalance(s, lost, b, l, step); }
  }

  ghost function BookAfter(s: State, b: BatchId, l: Book, steps: seq<Step>): Book
    requires CanRun(s, steps)
    decreases |steps|
  {
    if steps == [] then l else BookAfter(Apply(s, steps[0]), b, Posted(s, b, l, steps[0]), steps[1..])
  }

  /** The law holds over every run whatsoever: restarts, removals, refused submits and reused ids included. */
  lemma {:induction false} BalanceInRuns(s: State, lost: set<TaskId>, b: BatchId, l: Book, steps: seq<Step>)
    requires CanRun(s, steps) && Owned(s.store, s.ws, lost) && Balanced(s, b, l)
    requires b != NO_BATCH && s.cfg.batchCallback
    ensures Balanced(After(s, steps), b, BookAfter(s, b, l, steps)) && After(s, steps).cfg == s.cfg
    decreases |steps|
  {
    if steps != [] {
      StepKeepsBalance(s, lost, b, l, steps[0]);
      StepKeepsOwned(s, lost, steps[0]);
      MoverShape(s, steps[0]);
      BalanceInRuns(Apply(s, steps[0]), Lost(s, lost, steps[0]), b, Posted(s, b, l, steps[0]), steps[1..]);
    }
  }

  lemma InitIsBalanced(cfg: Config, workers: nat, b: BatchId)
    ensures Balanced(Init(cfg, workers), b, Book(0, 0, 0))
  {
    NoneCounted(workers, EngagedIn(b));
    assert Waiting(Init(cfg, workers).store, b) == {};
  }

  // ---------- what the count says ----------

  /** At rest, with every submit tracked, total minus done is what was missed or dropped less what was restarted; so
      the completion condition holds exactly if the losses do not exceed the restarts. */
  lemma RestedCountLeaksExactly(cfg: Config, workers: nat, b: BatchId, steps: seq<Step>)
    requires b != NO_BATCH && cfg.batchCallback && CanRun(Init(cfg, workers), steps)
    requires var e := After(Init(cfg, workers), steps);
             && (forall w :: 0 <= w < |e.ws| ==> e.ws[w].pc == Idle)
             && (forall id :: !Awaits(e.store, b, id)) && e.untracked[b] == 0
    ensures var e, l := After(Init(cfg, workers), steps), BookAfter(Init(cfg, workers), b, Book(0, 0, 0), steps);
            && CounterOf(e, b).total - CounterOf(e, b).done == l.missed + l.dropped - l.restarted
            && (CounterOf(e, b).total - CounterOf(e, b).done <= 0 <==> l.missed + l.dropped <= l.restarted)
  {
    var s := Init(cfg, workers);
    var e := After(s, steps);
    InitIsOwned(cfg, workers);
    InitIsBalanced(cfg, workers, b);
    BalanceInRuns(s, {}, b, Book(0, 0, 0), steps);
    assert Waiting(e.store, b) == {};
    CountPositive(e.ws, EngagedIn(b));
  }

  /** In every state of every run, a count for a batch with a counter calls back exactly when the activations then
      still open and those lost are made up for by restarts and by submits not tracked yet. */
  lemma CountCallsBackExactly(s: State, b: BatchId, l: Book, w: nat)
    requires Balanced(s, b, l) && WorkerAt(s, w, Recorded) && s.ws[w].task.batch == b && b in s.batches
    requires b != NO_BATCH && s.cfg.batchCallback
    ensures var s' := CountBatch(s, w);
            s'.ws[w].fire <==> Open(s', b) + l.missed + l.dropped <= l.restarted + s'.untracked[b]
  {
    CountKeepsBalance(s, b, l, w);
  }

  /** Submit tracks its batch only after its Enqueue, so a worker may count the task in between. The counter ends
      the same in either order exactly if the batch had a counter before; and even then the early count sees one
      task too few, so it calls back when another one is still missing. */
  lemma EarlyCountIsMissedExactly(s: State, w: nat, b: BatchId)
    requires WorkerAt(s, w, Recorded) && b in s.untracked
    requires s.ws[w].task.batch == b && b != NO_BATCH && s.cfg.batchCallback
    ensures Track(CountBatch(s, w), b).batches == CountBatch(Track(s, b), w).batches <==> b in s.batches
    ensures b in s.batches ==> CallsBackEarly(s, w, b)
  {
    TrackingCommutesExactly(s, w, b);
    if b in s.batches { CountsEarly(s, w, b); }
  }

  lemma TrackingCommutesExactly(s: State, w: nat, b: BatchId)
    requires WorkerAt(s, w, Recorded) && b in s.untracked
    requires s.ws[w].task.batch == b && b != NO_BATCH && s.cfg.batchCallback
    ensures Track(CountBatch(s, w), b).batches == CountBatch(Track(s, b), w).batches <==> b in s.batches
  {
    var a, c := Track(CountBatch(s, w), b).batches, CountBatch(Track(s, b), w).batches;
    assert a[b] == c[b] ==> a == c;
  }

  lemma CountsEarly(s: State, w: nat, b: BatchId)
    requires WorkerAt(s, w, Recorded) && b in s.untracked && b in s.batches
    requires s.ws[w].task.batch == b && b != NO_BATCH && s.cfg.batchCallback
    ensures CallsBackEarly(s, w, b)
  {
  }

  /** A count now calls back with one task missing, and one after the tracking with none. */
  predicate CallsBackEarly(s: State, w: nat, b: BatchId)
    requires WorkerAt(s, w, Recorded) && b in s.untracked && b in s.batches
  {
    var missing := s.batches[b].total - s.batches[b].done;
    (CountBatch(s, w).ws[w].fire <==> missing <= 1) && (CountBatch(Track(s, b), w).ws[w].fire <==> missing <= 0)
  }

  // ---------- silence ----------

  /** More was lost than restarts and submits in flight make up for. */
  predicate Short(s: State, b: BatchId, l: Book) {
    l.missed + l.dropped > l.restarted + s.untracked[b]
  }

  /** The steps that may make up for a loss: starting a task, and queueing another one of the batch. */
  predicate Refills(s: State, b: BatchId, step: Step) {
    step.DoStart? || (step.DoSubmit? && step.t.batch == b)
  }

  lemma StaysShort(s: State, b: BatchId, l: Book, step: Step)
    requires Short(s, b, l) && Enabled(s, step) && !Refills(s, b, step)
    ensures Short(Apply(s, step), b, Posted(s, b, l, step))
  {
  }

  /** How often the callback has been made or decided. */
  function Calls(s: State, b: BatchId): nat {
    Count(s.ws, FiringOf(b)) + TimesFired(s.fired, b)
  }

  lemma FireAddsNoCall(s: State, b: BatchId, w: nat)
    requires Enabled(s, DoFire(w))
    ensures Calls(Fire(s, w), b) <= Calls(s, b)
  {
    var s' := Fire(s, w);
    var x := s.ws[w].task.batch;
    CountUpdate(s.ws, FiringOf(b), w, s'.ws[w]);
    FiredAppend(s.fired, Firing(x, BatchResults(s.store, x)), b);
  }

  lemma CountDecidesNothing(s: State, b: BatchId, l: Book, w: nat)
    requires Balanced(s, b, l) && Short(s, b, l) && WorkerAt(s, w, Recorded) && b != NO_BATCH && s.cfg.batchCallback
    ensures Calls(CountBatch(s, w), b) == Calls(s, b)
  {
    CountUpdate(s.ws, FiringOf(b), w, CountBatch(s, w).ws[w]);
    if s.ws[w].task.batch == b && b in s.batches { CountCallsBackExactly(s, b, l, w); }
  }

  lemma OthersFireNothing(s: State, step: Step)
    requires Enabled(s, step) && !step.DoFire?
    ensures Apply(s, step).fired == s.fired
  {
  }

  lemma OthersRaiseNoFlag(s: State, step: Step, w: nat)
    requires Enabled(s, step) && !step.DoFire? && !step.DoCount? && Mover(step) == Some(w)
    ensures var s' := Apply(s, step); w < |s.ws| == |s'.ws| && !(s'.ws[w].pc == Counted && s'.ws[w].fire)
  {
  }

  lemma StepAddsNoCall(s: State, b: BatchId, l: Book, step: Step)
    requires Balanced(s, b, l) && Short(s, b, l) && Enabled(s, step) && b != NO_BATCH && s.cfg.batchCallback
    ensures Calls(Apply(s, step), b) <= Calls(s, b)
  {
    if step.DoFire? { FireAddsNoCall(s, b, step.w); }
    else if step.DoCount? { CountDecidesNothing(s, b, l, step.w); }
    else {
      MoverShape(s, step);
      OthersFireNothing(s, step);
      if Mover(step).Some? {
        var w := Mover(step).value;
        OthersRaiseNoFlag(s, step, w);
        CountUpdate(s.ws, FiringOf(b), w, Apply(s, step).ws[w]);
      }
    }
  }

  ghost predicate RefillsNowhere(s: State, b: BatchId, steps: seq<Step>)
    requires CanRun(s, steps)
    decreases |steps|
  {
    steps == [] || (!Refills(s, b, steps[0]) && RefillsNowhere(Apply(s, steps[0]), b, steps[1..]))
  }

  /** A batch that is short stays silent: no callback of it is decided any more until something is started or
      submitted to it. */
  lemma {:induction false} ShortBatchStaysSilent(s: State, lost: set<TaskId>, b: BatchId, l: Book, steps: seq<Step>)
    requires CanRun(s, steps) && Owned(s.store, s.ws, lost) && Balanced(s, b, l) && Short(s, b, l)
    requires b != NO_BATCH && s.cfg.batchCallback && RefillsNowhere(s, b, steps)
    ensures Calls(After(s, steps), b) <= Calls(s, b)
    decreases |steps|
  {
    if steps != [] {
      var s' := Apply(s, steps[0]);
      StepAddsNoCall(s, b, l, steps[0]);
      StaysShort(s, b, l, steps[0]);
      StepKeepsBalance(s, lost, b, l, steps[0]);
      StepKeepsOwned(s, lost, steps[0]);
      MoverShape(s, steps[0]);
      ShortBatchStaysSilent(s', Lost(s, lost, steps[0]), b, Posted(s, b, l, steps[0]), steps[1..]);
    }
  }
}
