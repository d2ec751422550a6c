/** The batch-complete callback (pool/engine.go): when it fires exactly once, and with what. */
module Batches {
  import opened Tasks
  import opened StoreSpec
  import opened Engine
  import opened Ownership
  import opened Capacity

  predicate Final(status: TaskStatus) {
    status == Completed || status == Failed || status == Paused || status == Cancelled
  }

  /** About to call back for batch `b`. */
  function FiringOf(b: BatchId): Worker -> bool {
    (x: Worker) => x.pc == Counted && x.fire && x.task.batch == b
  }

  function TimesFired(fired: seq<Firing>, b: BatchId): nat {
    if fired == [] then 0
    else TimesFired(fired[..|fired| - 1], b) + if fired[|fired| - 1].batch == b then 1 else 0
  }

  /** History of batch `b`: its submitted ids, and those whose completion has been counted. */
  datatype Ledger = Ledger(members: set<TaskId>, counted: set<TaskId>)

  function Posted(s: State, b: BatchId, l: Ledger, step: Step): Ledger
    requires Enabled(s, step)
  {
    match step
    case DoSubmit(t, _) => if t.batch == b then l.(members := l.members + {t.id}) else l
    case DoCount(w) => if s.ws[w].task.batch == b then l.(counted := l.counted + {s.ws[w].task.id}) else l
    case _ => l
  }

  /** The steps under which the count is exact: the batch's submits succeed and are all tracked before anything is
      counted, and no member is started again, removed, terminated or cancelled while queued, or refused by
      a retry's Enqueue. */
  predicate Undisturbed(s: State, b: BatchId, l: Ledger, step: Step) {
    match step
    case DoSubmit(t, ok) => t.batch == b ==> ok && l.counted == {}
    case DoStart(id, _) => id !in l.members
    case DoTerminateIdle(id, _, _) => id !in l.members
    case DoRemove(id) => id !in l.members
    case DoCancelBatch(x) => x != b
    case DoRecord(w, ok, _, _, _) => w < |s.ws| && (s.ws[w].task.batch == b && s.ws[w].verdict.Retry? ==> ok)
    case DoCount(w) => w < |s.ws| && (s.ws[w].task.batch == b ==> s.untracked[b] == 0)
    case _ => true
  }

  /** Has written the final status of a member and not counted it yet. */
  predicate CountsNext(x: Worker, b: BatchId) {
    x.pc == Recorded && x.task.batch == b
  }

  predicate Recorder(ws: seq<Worker>, i: nat, b: BatchId, id: TaskId) {
    i < |ws| && CountsNext(ws[i], b) && ws[i].task.id == id
  }

  ghost predicate RecordedBySome(ws: seq<Worker>, b: BatchId, id: TaskId) {
    exists i: nat :: Recorder(ws, i, b, id)
  }

  ghost predicate MembersAgree(s: Store, b: BatchId, l: Ledger) {
    && (forall id :: id in s.tasks ==> (s.tasks[id].batch == b <==> id in l.members))
    && l.members <= s.tasks.Keys && l.counted <= l.members
  }

  /** A member is final exactly when it has been counted or one worker is about to count it. */
  ghost predicate FinalsAccounted(s: Store, ws: seq<Worker>, b: BatchId, l: Ledger) {
    && (forall id :: id in l.counted ==> id in s.tasks && Final(s.tasks[id].status))
    && (forall i :: 0 <= i < |ws| && CountsNext(ws[i], b) ==>
          ws[i].task.id in l.members && ws[i].task.id in s.tasks && Final(s.tasks[ws[i].task.id].status)
          && ws[i].task.id !in l.counted)
    && (forall i, j :: 0 <= i < |ws| && 0 <= j < |ws| && i != j && CountsNext(ws[i], b) && CountsNext(ws[j], b) ==>
          ws[i].task.id != ws[j].task.id)
    && (forall id :: id in l.members && id in s.tasks && Final(s.tasks[id].status) && id !in l.counted ==>
          RecordedBySome(ws, b, id))
  }

  /** The counter holds the sizes of the two sets, less the members whose submit has still to be tracked. */
  ghost predicate CounterExact(batches: map<BatchId, BatchCounter>, untracked: multiset<BatchId>, b: BatchId,
                                      l: Ledger)
  {
    && untracked[b] <= |l.members| && (l.counted != {} ==> untracked[b] == 0)
    && if |l.members| == untracked[b] then b !in batches
       else b in batches && batches[b] == BatchCounter(|l.members| - untracked[b], |l.counted|)
  }

  predicate AllCounted(l: Ledger) {
    l.members != {} && l.counted == l.members
  }

  /** One worker is about to fire or one callback has been made, exactly when all are counted. */
  ghost predicate FiresOnce(ws: seq<Worker>, fired: seq<Firing>, b: BatchId, l: Ledger) {
    Count(ws, FiringOf(b)) + TimesFired(fired, b) == Is(AllCounted(l))
  }

  /** Every callback made for `b` listed exactly its members, all final. */
  ghost predicate ReportsFinal(fired: seq<Firing>, b: BatchId, l: Ledger) {
    forall k :: 0 <= k < |fired| && fired[k].batch == b ==>
      fired[k].results.Keys == l.members && forall id :: id in fired[k].results ==> Final(fired[k].results[id])
  }

  ghost predicate BatchInv(s: State, b: BatchId, l: Ledger) {
    && MembersAgree(s.store, b, l) && FinalsAccounted(s.store, s.ws, b, l)
    && CounterExact(s.batches, s.untracked, b, l) && FiresOnce(s.ws, s.fired, b, l) && ReportsFinal(s.fired, b, l)
  }

  // ---------- members and final statuses ----------

  /** The store change keeps the members, their batch and whether each is final. */
  ghost predicate SameFinals(s: Store, s': Store, b: BatchId, l: Ledger) {
    && (forall id :: id in s'.tasks ==> (s'.tasks[id].batch == b <==> id in l.members))
    && (forall id :: id in l.members ==>
          id in s.tasks && id in s'.tasks && Final(s'.tasks[id].status) == Final(s.tasks[id].status))
  }

  lemma StoreChangeKeeps(s: Store, s': Store, ws: seq<Worker>, b: BatchId, l: Ledger)
    requires MembersAgree(s, b, l) && FinalsAccounted(s, ws, b, l) && SameFinals(s, s', b, l)
    ensures MembersAgree(s', b, l) && FinalsAccounted(s', ws, b, l)
  {
  }

  lemma MoveKeepsFinals(s: Store, ws: seq<Worker>, b: BatchId, l: Ledger, w: nat, x: Worker)
    requires FinalsAccounted(s, ws, b, l) && w < |ws| && !CountsNext(ws[w], b) && !CountsNext(x, b)
    ensures FinalsAccounted(s, ws[w := x], b, l)
  {
    forall id | RecordedBySome(ws, b, id) ensures RecordedBySome(ws[w := x], b, id) {
      var i: nat :| Recorder(ws, i, b, id);
      assert Recorder(ws[w := x], i, b, id);
    }
  }

  /** A member's final status is written, and its writer is now about to count it. */
  lemma RecordKeepsFinals(s: Store, s': Store, ws: seq<Worker>, b: BatchId, l: Ledger, w: nat, x: Worker)
    requires MembersAgree(s, b, l) && FinalsAccounted(s, ws, b, l) && w < |ws| && !CountsNext(ws[w], b)
    requires CountsNext(x, b)
    requires var id := x.task.id;
             && id in s.tasks && !Final(s.tasks[id].status) && s.tasks[id].batch == b
             && s'.tasks.Keys == s.tasks.Keys && Final(s'.tasks[id].status) && s'.tasks[id].batch == b
             && (forall y :: y in s.tasks && y != id ==> s'.tasks[y] == s.tasks[y])
    ensures MembersAgree(s', b, l) && FinalsAccounted(s', ws[w := x], b, l)
  {
    assert Recorder(ws[w := x], w, b, x.task.id);
    forall id | RecordedBySome(ws, b, id) ensures RecordedBySome(ws[w := x], b, id) {
      var i: nat :| Recorder(ws, i, b, id);
      assert Recorder(ws[w := x], i, b, id);
    }
  }

  lemma CountKeepsFinals(s: Store, ws: seq<Worker>, b: BatchId, l: Ledger, w: nat, x: Worker)
    requires MembersAgree(s, b, l) && FinalsAccounted(s, ws, b, l) && w < |ws| && CountsNext(ws[w], b)
    requires !CountsNext(x, b)
    ensures var m := l.(counted := l.counted + {ws[w].task.id});
            MembersAgree(s, b, m) && FinalsAccounted(s, ws[w := x], b, m)
  {
    forall id | RecordedBySome(ws, b, id) && id != ws[w].task.id ensures RecordedBySome(ws[w := x], b, id) {
      var i: nat :| Recorder(ws, i, b, id);
      assert Recorder(ws[w := x], i, b, id);
    }
  }

  lemma SubmitKeepsFinals(s: Store, s': Store, ws: seq<Worker>, b: BatchId, l: Ledger, t: Task)
    requires MembersAgree(s, b, l) && FinalsAccounted(s, ws, b, l) && l.counted == {}
    requires t.id !in s.tasks && t.batch == b && !Final(t.status) && s'.tasks == s.tasks[t.id := t]
    ensures var m := l.(members := l.members + {t.id}); MembersAgree(s', b, m) && FinalsAccounted(s', ws, b, m)
  {
  }

  // ---------- counting and firing ----------

  lemma {:induction false} NeverFired(fired: seq<Firing>, b: BatchId)
    ensures TimesFired(fired, b) == 0 <==> (forall k :: 0 <= k < |fired| ==> fired[k].batch != b)
  {
    if fired != [] {
      var n := |fired| - 1;
      NeverFired(fired[..n], b);
      if forall k :: 0 <= k < |fired| ==> fired[k].batch != b {
        forall k | 0 <= k < n ensures fired[..n][k].batch != b {
          assert fired[k].batch != b;
        }
      }
      if TimesFired(fired, b) == 0 {
        forall k | 0 <= k < |fired| ensures fired[k].batch != b {
          assert k == n || fired[..n][k].batch != b;
        }
      }
    }
  }

  lemma FiredAppend(fired: seq<Firing>, f: Firing, b: BatchId)
    ensures TimesFired(fired + [f], b) == TimesFired(fired, b) + Is(f.batch == b)
  {
    assert (fired + [f])[..|fired|] == fired;
  }

  lemma SubsetSizes(a: set<TaskId>, c: set<TaskId>)
    requires a <= c
    ensures |a| <= |c| && (|a| == |c| <==> a == c)
  {
    assert c == a + (c - a);
    assert |c| == |a| + |c - a|;
  }

  /** Counting the last member is what raises the fire flag. */
  lemma CountingKeepsBatch(s: State, b: BatchId, l: Ledger, w: nat)
    requires BatchInv(s, b, l) && WorkerAt(s, w, Recorded) && s.ws[w].task.batch == b
    requires b != NO_BATCH && s.cfg.batchCallback && s.untracked[b] == 0
    ensures BatchInv(CountBatch(s, w), b, l.(counted := l.counted + {s.ws[w].task.id}))
  {
    var id := s.ws[w].task.id;
    var s' := CountBatch(s, w);
    var m := l.(counted := l.counted + {id});
    assert CountsNext(s.ws[w], b);
    CountKeepsFinals(s.store, s.ws, b, l, w, s'.ws[w]);
    assert |m.counted| == |l.counted| + 1;
    SubsetSizes(m.counted, l.members);
    CountUpdate(s.ws, FiringOf(b), w, s'.ws[w]);
  }

  lemma FiringMeansAllCounted(s: State, b: BatchId, l: Ledger, w: nat)
    requires FiresOnce(s.ws, s.fired, b, l) && w < |s.ws| && FiringOf(b)(s.ws[w])
    ensures AllCounted(l) && TimesFired(s.fired, b) == 0 && Count(s.ws, FiringOf(b)) == 1
  {
    CountPositive(s.ws, FiringOf(b));
  }

  /** The callback lists every member, and every member is final. */
  lemma ReportIsFinal(s: Store, ws: seq<Worker>, fired: seq<Firing>, b: BatchId, l: Ledger)
    requires MembersAgree(s, b, l) && FinalsAccounted(s, ws, b, l) && AllCounted(l) && TimesFired(fired, b) == 0
    ensures var results := BatchResults(s, b);
            results != map[] && ReportsFinal(fired + [Firing(b, results)], b, l)
  {
    var results := BatchResults(s, b);
    NeverFired(fired, b);
    assert results.Keys == l.members;
    var some :| some in l.members;
    assert some in results;
  }

  lemma FiringKeepsBatch(s: State, b: BatchId, l: Ledger, w: nat)
    requires BatchInv(s, b, l) && Enabled(s, DoFire(w)) && s.ws[w].task.batch == b
    ensures BatchInv(Fire(s, w), b, l)
  {
    var x := s.ws[w].(fire := false);
    FiringMeansAllCounted(s, b, l, w);
    ReportIsFinal(s.store, s.ws, s.fired, b, l);
    CountUpdate(s.ws, FiringOf(b), w, x);
    FiredAppend(s.fired, Firing(b, BatchResults(s.store, b)), b);
    MoveKeepsFinals(s.store, s.ws, b, l, w, x);
    assert Fire(s, w).ws == s.ws[w := x];
  }

  lemma ReportsAppend(fired: seq<Firing>, f: Firing, b: BatchId, l: Ledger)
    requires ReportsFinal(fired, b, l) && f.batch != b
    ensures ReportsFinal(fired + [f], b, l) && TimesFired(fired + [f], b) == TimesFired(fired, b)
  {
    FiredAppend(fired, f, b);
  }

  lemma OtherFiringKeepsBatch(s: State, b: BatchId, l: Ledger, w: nat)
    requires BatchInv(s, b, l) && Enabled(s, DoFire(w)) && s.ws[w].task.batch != b
    ensures BatchInv(Fire(s, w), b, l)
  {
    var s' := Fire(s, w);
    var x := s'.ws[w];
    CountUpdate(s.ws, FiringOf(b), w, x);
    ReportsAppend(s.fired, Firing(s.ws[w].task.batch, BatchResults(s.store, s.ws[w].task.batch)), b, l);
    MoveKeepsFinals(s.store, s.ws, b, l, w, x);
    assert s'.ws == s.ws[w := x] && s'.store == s.store && s'.batches == s.batches;
  }

  lemma OtherCountingKeepsBatch(s: State, b: BatchId, l: Ledger, w: nat)
    requires BatchInv(s, b, l) && WorkerAt(s, w, Recorded) && s.ws[w].task.batch != b
    ensures BatchInv(CountBatch(s, w), b, l)
  {
    var s' := CountBatch(s, w);
    CountUpdate(s.ws, FiringOf(b), w, s'.ws[w]);
    MoveKeepsFinals(s.store, s.ws, b, l, w, s'.ws[w]);
  }

  lemma JoiningKeepsBatch(s: State, b: BatchId, l: Ledger, t: Task)
    requires BatchInv(s, b, l) && Submittable(s, t) && t.batch == b != NO_BATCH && s.cfg.batchCallback
    requires l.counted == {}
    ensures BatchInv(Submit(s, t, true), b, l.(members := l.members + {t.id}))
  {
    SubmitKeepsFinals(s.store, Submit(s, t, true).store, s.ws, b, l, t);
    NeverFired(s.fired, b);
  }

  lemma OtherSubmitKeepsBatch(s: State, b: BatchId, l: Ledger, t: Task, ok: bool)
    requires BatchInv(s, b, l) && Submittable(s, t) && t.batch != b
    ensures BatchInv(Submit(s, t, ok), b, l)
  {
    StoreChangeKeeps(s.store, Submit(s, t, ok).store, s.ws, b, l);
  }

  lemma TrackingKeepsBatch(s: State, b: BatchId, l: Ledger, x: BatchId)
    requires BatchInv(s, b, l) && x in s.untracked && b != NO_BATCH && s.cfg.batchCallback
    ensures BatchInv(Track(s, x), b, l)
  {
  }

  /** A worker writes its task's outcome. */
  lemma SettlingKeepsBatch(s: State, lost: set<TaskId>, b: BatchId, l: Ledger, step: Step)
    requires BatchInv(s, b, l) && Enabled(s, step) && Owned(s.store, s.ws, lost)
    requires Undisturbed(s, b, l, step) && (step.DoRecord? || step.DoReject?)
    ensures BatchInv(Apply(s, step), b, l)
  {
    var s' := Apply(s, step);
    SettlingOutcome(s, lost, b, l, step);
    OutcomeKeepsFinals(s.store, s'.store, s.ws, b, l, step.w, s'.ws[step.w]);
    CountUpdate(s.ws, FiringOf(b), step.w, s'.ws[step.w]);
  }

  lemma OutcomeKeepsFinals(s: Store, s': Store, ws: seq<Worker>, b: BatchId, l: Ledger, w: nat, x: Worker)
    requires MembersAgree(s, b, l) && FinalsAccounted(s, ws, b, l) && w < |ws|
    requires ws[w].pc != Recorded && x.task == ws[w].task
    requires var id := x.task.id;
             && id in s.tasks && s.tasks[id].status == Running && s'.tasks.Keys == s.tasks.Keys
             && s'.tasks[id].batch == s.tasks[id].batch == x.task.batch
             && (x.pc == Recorded ==> Final(s'.tasks[id].status))
             && (x.pc != Recorded && x.task.batch == b ==> !Final(s'.tasks[id].status))
             && (forall y :: y in s.tasks && y != id ==> s'.tasks[y] == s.tasks[y])
    ensures MembersAgree(s', b, l) && FinalsAccounted(s', ws[w := x], b, l)
  {
    if CountsNext(x, b) {
      RecordKeepsFinals(s, s', ws, b, l, w, x);
    } else {
      StoreChangeKeeps(s, s', ws, b, l);
      MoveKeepsFinals(s', ws, b, l, w, x);
    }
  }

  /** The written status is final, unless a retry was enqueued and there is nothing to count. */
  lemma SettlingOutcome(s: State, lost: set<TaskId>, b: BatchId, l: Ledger, step: Step)
    requires Enabled(s, step) && Owned(s.store, s.ws, lost) && Undisturbed(s, b, l, step)
    requires step.DoRecord? || step.DoReject?
    ensures var s' := Apply(s, step);
            var id := s.ws[step.w].task.id;
            && s'.ws == s.ws[step.w := s'.ws[step.w]] && s'.ws[step.w].task == s.ws[step.w].task
            && s.ws[step.w].pc != Recorded
            && !FiringOf(b)(s'.ws[step.w]) && !FiringOf(b)(s.ws[step.w])
            && s'.batches == s.batches && s'.fired == s.fired && s'.untracked == s.untracked
            && id in s.store.tasks && s.store.tasks[id].status == Running && s'.store.tasks.Keys == s.store.tasks.Keys
            && s'.store.tasks[id].batch == s.store.tasks[id].batch == s.ws[step.w].task.batch
            && (s'.ws[step.w].pc == Recorded ==> Final(s'.store.tasks[id].status))
            && (s'.ws[step.w].pc != Recorded && s.ws[step.w].task.batch == b ==> !Final(s'.store.tasks[id].status))
            && (forall y :: y in s.store.tasks && y != id ==> s'.store.tasks[y] == s.store.tasks[y])
  {
    SettleTouchesOne(s, lost, step);
    SettledTask(s, lost, b, l, step);
  }

  lemma SettledTask(s: State, lost: set<TaskId>, b: BatchId, l: Ledger, step: Step)
    requires Enabled(s, step) && Owned(s.store, s.ws, lost) && Undisturbed(s, b, l, step)
    requires step.DoRecord? || step.DoReject?
    ensures var s' := Apply(s, step);
            var id := s.ws[step.w].task.id;
            && id in s.store.tasks && s.store.tasks[id].status == Running && id in s'.store.tasks
            && s'.store.tasks[id].batch == s.store.tasks[id].batch == s.ws[step.w].task.batch
            && |s'.ws| == |s.ws| && (s'.ws[step.w].pc == Recorded ==> Final(s'.store.tasks[id].status))
            && (s'.ws[step.w].pc != Recorded && s.ws[step.w].task.batch == b ==> !Final(s'.store.tasks[id].status))
  {
    assert Holds(s.ws[step.w]);
  }

  lemma TakingKeepsBatch(s: State, lost: set<TaskId>, b: BatchId, l: Ledger, step: Step)
    requires BatchInv(s, b, l) && Enabled(s, step) && Owned(s.store, s.ws, lost) && step.DoTake?
    ensures BatchInv(Apply(s, step), b, l)
  {
    var s' := Apply(s, step);
    TakeKeepsSameFinals(s, b, l, step);
    StoreChangeKeeps(s.store, s'.store, s.ws, b, l);
    MoveKeepsFinals(s'.store, s.ws, b, l, step.w, s'.ws[step.w]);
    CountUpdate(s.ws, FiringOf(b), step.w, s'.ws[step.w]);
  }

  lemma TakeKeepsSameFinals(s: State, b: BatchId, l: Ledger, step: Step)
    requires MembersAgree(s.store, b, l) && Enabled(s, step) && step.DoTake?
    ensures var s' := Apply(s, step);
            && SameFinals(s.store, s'.store, b, l) && s'.batches == s.batches && s'.fired == s.fired
               && s'.untracked == s.untracked
            && |s'.ws| == |s.ws| && s'.ws == s.ws[step.w := s'.ws[step.w]]
            && !CountsNext(s.ws[step.w], b) && !CountsNext(s'.ws[step.w], b)
            && !FiringOf(b)(s.ws[step.w]) && !FiringOf(b)(s'.ws[step.w])
  {
  }

  /** The worker steps that touch neither the store, nor the counters, nor a fire flag. */
  predicate Bystands(step: Step) {
    || step.DoAdmit? || step.DoAbandon? || step.DoEnterGauge? || step.DoRegister? || step.DoReturn? || step.DoJudge?
    || step.DoReadCache?
    || step.DoUnlist? || step.DoLeaveGauge? || step.DoRelease?
  }

  lemma BystandersChangeNothing(s: State, step: Step, b: BatchId)
    requires Enabled(s, step) && Bystands(step)
    ensures var s' := Apply(s, step);
            && step.w < |s.ws| == |s'.ws| && s'.ws == s.ws[step.w := s'.ws[step.w]]
            && s'.store == s.store && s'.batches == s.batches && s'.fired == s.fired && s'.untracked == s.untracked
            && s.ws[step.w].pc != Recorded && s'.ws[step.w].pc != Recorded
            && !FiringOf(b)(s.ws[step.w]) && !FiringOf(b)(s'.ws[step.w])
  {
  }

  lemma StartKeepsFinals(s: State, b: BatchId, l: Ledger, step: Step)
    requires Enabled(s, step) && MembersAgree(s.store, b, l) && Undisturbed(s, b, l, step) && StoreSane(s.store)
    requires step.DoStart?
    ensures SameFinals(s.store, Apply(s, step).store, b, l)
  {
  }

  lemma TerminationKeepsFinals(s: State, b: BatchId, l: Ledger, step: Step)
    requires Enabled(s, step) && MembersAgree(s.store, b, l) && Undisturbed(s, b, l, step) && StoreSane(s.store)
    requires step.DoTerminateIdle?
    ensures SameFinals(s.store, Apply(s, step).store, b, l)
  {
  }

  lemma RemovalsKeepFinals(s: State, b: BatchId, l: Ledger, step: Step)
    requires Enabled(s, step) && MembersAgree(s.store, b, l) && Undisturbed(s, b, l, step)
    requires step.DoRemove? || step.DoCancelBatch?
    ensures SameFinals(s.store, Apply(s, step).store, b, l)
  {
  }

  lemma SameRecordsKeepFinals(s: Store, s': Store, b: BatchId, l: Ledger)
    requires MembersAgree(s, b, l) && SameRecords(s, s')
    ensures SameFinals(s, s', b, l)
  {
  }

  lemma CallsTouchNoBatch(s: State, step: Step)
    requires Enabled(s, step) && Mover(step).None? && !step.DoSubmit? && !step.DoTrack?
    ensures var s' := Apply(s, step);
            s'.ws == s.ws && s'.batches == s.batches && s'.fired == s.fired && s'.untracked == s.untracked
  {
  }

  lemma CallsKeepFinals(s: State, b: BatchId, l: Ledger, step: Step)
    requires Enabled(s, step) && MembersAgree(s.store, b, l) && Undisturbed(s, b, l, step) && StoreSane(s.store)
    requires Mover(step).None? && !step.DoSubmit? && !step.DoTrack?
    ensures SameFinals(s.store, Apply(s, step).store, b, l)
  {
    if step.DoStart? { StartKeepsFinals(s, b, l, step); }
    else if step.DoTerminateIdle? { TerminationKeepsFinals(s, b, l, step); }
    else if step.DoRemove? || step.DoCancelBatch? { RemovalsKeepFinals(s, b, l, step); }
    else {
      FieldWritesKeepRecords(s, step);
      SameRecordsKeepFinals(s.store, Apply(s, step).store, b, l);
    }
  }

  lemma FlushKeepsBatch(s: State, b: BatchId, l: Ledger, w: nat)
    requires Enabled(s, DoFlushCached(w)) && BatchInv(s, b, l) && StoreSane(s.store)
    ensures BatchInv(FlushCached(s, w), b, l)
  {
    var s' := FlushCached(s, w);
    FlushWritesProgress(s, w);
    assert SameRecords(s.store, s'.store);
    SameRecordsKeepFinals(s.store, s'.store, b, l);
    StoreChangeKeeps(s.store, s'.store, s.ws, b, l);
    MoveKeepsFinals(s'.store, s.ws, b, l, w, s'.ws[w]);
    CountUpdate(s.ws, FiringOf(b), w, s'.ws[w]);
  }

  /** A worker neither counting nor calling back. */
  lemma QuietWorkerKeepsBatch(s: State, lost: set<TaskId>, b: BatchId, l: Ledger, step: Step)
    requires Enabled(s, step) && Owned(s.store, s.ws, lost) && BatchInv(s, b, l) && Undisturbed(s, b, l, step)
    requires Bystands(step) || step.DoTake? || step.DoFlushCached? || step.DoRecord? || step.DoReject?
    ensures BatchInv(Apply(s, step), b, l)
  {
    if Bystands(step) {
      var s' := Apply(s, step);
      BystandersChangeNothing(s, step, b);
      MoveKeepsFinals(s.store, s.ws, b, l, step.w, s'.ws[step.w]);
      CountUpdate(s.ws, FiringOf(b), step.w, s'.ws[step.w]);
    } else if step.DoTake? {
      TakingKeepsBatch(s, lost, b, l, step);
    } else if step.DoFlushCached? {
      FlushKeepsBatch(s, b, l, step.w);
    } else {
      SettlingKeepsBatch(s, lost, b, l, step);
    }
  }

  lemma LoudWorkerKeepsBatch(s: State, b: BatchId, l: Ledger, step: Step)
    requires Enabled(s, step) && BatchInv(s, b, l) && (step.DoCount? || step.DoFire?)
    requires b != NO_BATCH && s.cfg.batchCallback && Undisturbed(s, b, l, step)
    ensures BatchInv(Apply(s, step), b, Posted(s, b, l, step))
  {
    var mine := s.ws[step.w].task.batch == b;
    if step.DoCount? {
      if mine { CountingKeepsBatch(s, b, l, step.w); } else { OtherCountingKeepsBatch(s, b, l, step.w); }
    } else {
      if mine { FiringKeepsBatch(s, b, l, step.w); } else { OtherFiringKeepsBatch(s, b, l, step.w); }
    }
  }

  lemma StepKeepsBatch(s: State, lost: set<TaskId>, b: BatchId, l: Ledger, step: Step)
    requires Enabled(s, step) && Owned(s.store, s.ws, lost) && BatchInv(s, b, l)
    requires b != NO_BATCH && s.cfg.batchCallback && Undisturbed(s, b, l, step)
    ensures BatchInv(Apply(s, step), b, Posted(s, b, l, step))
  {
    var s' := Apply(s, step);
    if Bystands(step) || step.DoTake? || step.DoFlushCached? || step.DoRecord? || step.DoReject? {
      QuietWorkerKeepsBatch(s, lost, b, l, step);
    } else if step.DoCount? || step.DoFire? {
      LoudWorkerKeepsBatch(s, b, l, step);
    } else if step.DoSubmit? {
      if step.t.batch == b { JoiningKeepsBatch(s, b, l, step.t); }
      else { OtherSubmitKeepsBatch(s, b, l, step.t, step.ok); }
    } else if step.DoTrack? {
      TrackingKeepsBatch(s, b, l, step.b);
    } else {
      CallsKeepFinals(s, b, l, step);
      CallsTouchNoBatch(s, step);
      StoreChangeKeeps(s.store, s'.store, s.ws, b, l);
    }
  }

  ghost predicate UndisturbedRun(s: State, b: BatchId, l: Ledger, steps: seq<Step>)
    requires CanRun(s, steps)
    decreases |steps|
  {
    steps == [] || (Undisturbed(s, b, l, steps[0])
                    && UndisturbedRun(Apply(s, steps[0]), b, Posted(s, b, l, steps[0]), steps[1..]))
  }

  function LedgerAfter(s: State, b: BatchId, l: Ledger, steps: seq<Step>): Ledger
    requires CanRun(s, steps)
    decreases |steps|
  {
    if steps == [] then l else LedgerAfter(Apply(s, steps[0]), b, Posted(s, b, l, steps[0]), steps[1..])
  }

  lemma {:induction false} BatchInvInRuns(s: State, lost: set<TaskId>, b: BatchId, l: Ledger, steps: seq<Step>)
    requires CanRun(s, steps) && Owned(s.store, s.ws, lost) && BatchInv(s, b, l)
    requires b != NO_BATCH && s.cfg.batchCallback && UndisturbedRun(s, b, l, steps)
    ensures BatchInv(After(s, steps), b, LedgerAfter(s, b, l, steps))
    decreases |steps|
  {
    if steps != [] {
      StepKeepsBatch(s, lost, b, l, steps[0]);
      StepKeepsOwned(s, lost, steps[0]);
      MoverShape(s, steps[0]);
      BatchInvInRuns(Apply(s, steps[0]), Lost(s, lost, steps[0]), b, Posted(s, b, l, steps[0]), steps[1..]);
    }
  }

  lemma InitHasNoBatch(cfg: Config, workers: nat, b: BatchId)
    ensures BatchInv(Init(cfg, workers), b, Ledger({}, {}))
  {
    NoneCounted(workers, FiringOf(b));
  }

  /** The submitted ids of the batch whose outcome has not been counted. */
  function Uncounted(l: Ledger): set<TaskId> {
    l.members - l.counted
  }

  lemma UncountedSize(l: Ledger)
    requires l.counted <= l.members
    ensures |l.members| == |l.counted| + |Uncounted(l)|
  {
    assert l.members == l.counted + Uncounted(l);
  }

  /** In every undisturbed run from the start: total minus done is the number of members not yet counted, less those
      not yet tracked; at most one callback is made or pending, and one is exactly when every member has been counted;
      and the
      callback lists all members, each Completed, Failed, Paused or Cancelled. */
  lemma BatchFiresExactlyOnce(cfg: Config, workers: nat, b: BatchId, steps: seq<Step>)
    requires b != NO_BATCH && cfg.batchCallback && CanRun(Init(cfg, workers), steps)
    requires UndisturbedRun(Init(cfg, workers), b, Ledger({}, {}), steps)
    ensures var e := After(Init(cfg, workers), steps);
            var l := LedgerAfter(Init(cfg, workers), b, Ledger({}, {}), steps);
            && e.untracked[b] <= |Uncounted(l)|
            && (e.untracked[b] < |l.members| ==>
                  b in e.batches && e.batches[b].total - e.batches[b].done == |Uncounted(l)| - e.untracked[b])
            && Count(e.ws, FiringOf(b)) + TimesFired(e.fired, b) == Is(AllCounted(l))
            && ReportsFinal(e.fired, b, l)
  {
    var s := Init(cfg, workers);
    InitIsOwned(cfg, workers);
    InitHasNoBatch(cfg, workers, b);
    BatchInvInRuns(s, {}, b, Ledger({}, {}), steps);
    UncountedSize(LedgerAfter(s, b, Ledger({}, {}), steps));
  }

  /** When such a run has come to rest with every member final, the callback has been made, once. */
  lemma RestedBatchHasFired(s: State, b: BatchId, l: Ledger)
    requires BatchInv(s, b, l) && l.members != {}
    requires forall w :: 0 <= w < |s.ws| ==> s.ws[w].pc == Idle
    requires forall id :: id in l.members ==> id in s.store.tasks && Final(s.store.tasks[id].status)
    ensures TimesFired(s.fired, b) == 1
  {
    CountPositive(s.ws, FiringOf(b));
    forall id | id in l.members ensures id in l.counted {
      assert !RecordedBySome(s.ws, b, id);
    }
    assert l.counted == l.members;
  }
}
