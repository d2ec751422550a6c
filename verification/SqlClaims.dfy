/** The claim protocol of the database backends: claimers that SELECT a candidate and then UPDATE it
    conditionally, interleaved with every other statement (pool/sqlite_backend.go). MySQL's locking
    transaction is the same claim in one step (pool/mysql_backend.go). */
module SqlClaims {
  import opened Tasks
  import opened Rows

  /** `picks` holds what each claimer selected and has not yet tried to update. `openings` and `claims`
      are history: how often each id was set to Pending, and how often a claim of it succeeded. */
  datatype Sql = Sql(rows: Table, picks: seq<Option<TaskId>>, openings: multiset<TaskId>, claims: multiset<TaskId>)

  datatype Step =
    | SInsert(t: Task)
    | SEnqueue(t: Task)
    | SSelect(c: nat, id: TaskId, now: Time)
    | SUpdate(c: nat, now: Time)
    | SClaimLocked(id: TaskId, now: Time, locked: set<TaskId>)
    | SRemove(id: TaskId)
    | SUpdateStatus(id: TaskId, status: TaskStatus, error: Blob, now: Time)
    | SUpdateProgress(id: TaskId, p: (int, int))
    | SUpdateResult(id: TaskId, r: Blob)
    | SUpdateMetadata(id: TaskId, m: Blob)
    | SCancelBatch(b: BatchId)
    | SDelete(id: TaskId)
    | SCrash

  ghost predicate Enabled(s: Sql, step: Step) {
    match step
    case SInsert(t) => t.id !in s.rows
    case SSelect(c, id, now) => c < |s.picks| && s.picks[c].None? && IsNext(s.rows, id, now)
    case SUpdate(c, _) => c < |s.picks| && s.picks[c].Some?
    case SClaimLocked(id, now, locked) => IsNextUnlocked(s.rows, locked, id, now)
    case _ => true
  }

  function OpenedIf(s: Sql, id: TaskId, status: TaskStatus): multiset<TaskId> {
    if status == Pending then s.openings + multiset{id} else s.openings
  }

  function Claim(s: Sql, id: TaskId, now: Time): Sql {
    s.(rows := ClaimRow(s.rows, id, now),
       claims := if ClaimHits(s.rows, id) then s.claims + multiset{id} else s.claims)
  }

  /** A crash forgets the selections; the restart runs Recover. */
  function Crash(s: Sql): Sql {
    Sql(Recover(s.rows), seq(|s.picks|, _ => None),
        s.openings + multiset(set id | id in s.rows && s.rows[id].status == Running), s.claims)
  }

  function Apply(s: Sql, step: Step): Sql
    requires step.SUpdate? ==> step.c < |s.picks| && s.picks[step.c].Some?
    requires step.SSelect? ==> step.c < |s.picks|
  {
    match step
    case SInsert(t) => s.(rows := s.rows[t.id := t], openings := OpenedIf(s, t.id, t.status))
    case SEnqueue(t) => s.(rows := Rows.Enqueue(s.rows, t), openings := OpenedIf(s, t.id, t.status))
    case SSelect(c, id, _) => s.(picks := s.picks[c := Some(id)])
    case SUpdate(c, now) => Claim(s, s.picks[c].value, now).(picks := s.picks[c := None])
    case SClaimLocked(id, now, _) => Claim(s, id, now)
    case SRemove(id) => s.(rows := Rows.Remove(s.rows, id))
    case SUpdateStatus(id, status, error, now) =>
      s.(rows := Rows.UpdateStatus(s.rows, id, status, error, now), openings := OpenedIf(s, id, status))
    case SUpdateProgress(id, p) => s.(rows := Rows.UpdateProgress(s.rows, id, p))
    case SUpdateResult(id, r) => s.(rows := Rows.UpdateResult(s.rows, id, r))
    case SUpdateMetadata(id, m) => s.(rows := Rows.UpdateMetadata(s.rows, id, m))
    case SCancelBatch(b) => s.(rows := Rows.CancelBatch(s.rows, b))
    case SDelete(id) => s.(rows := s.rows - {id})
    case SCrash => Crash(s)
  }

  ghost predicate CanRun(s: Sql, steps: seq<Step>)
    decreases |steps|
  {
    steps == [] || (Enabled(s, steps[0]) && CanRun(Apply(s, steps[0]), steps[1..]))
  }

  ghost function After(s: Sql, steps: seq<Step>): Sql
    requires CanRun(s, steps)
    decreases |steps|
  {
    if steps == [] then s else After(Apply(s, steps[0]), steps[1..])
  }

  function Start(claimers: nat): Sql {
    Sql(map[], seq(claimers, _ => None), multiset{}, multiset{})
  }

  // ---------- claims are counted by openings ----------

  function StillOpen(s: Sql, id: TaskId): nat {
    if ClaimHits(s.rows, id) then 1 else 0
  }

  ghost predicate Counted(s: Sql) {
    forall id :: s.claims[id] + StillOpen(s, id) <= s.openings[id]
  }

  lemma ClaimKeepsCounted(s: Sql, id: TaskId, now: Time)
    requires Counted(s)
    ensures Counted(Claim(s, id, now))
  {
  }

  lemma WriteKeepsCounted(s: Sql, step: Step)
    requires Counted(s) && Enabled(s, step) && (step.SInsert? || step.SEnqueue? || step.SUpdateStatus?)
    ensures Counted(Apply(s, step))
  {
  }

  lemma CrashKeepsCounted(s: Sql)
    requires Counted(s)
    ensures Counted(Crash(s))
  {
    var s' := Crash(s);
    forall id ensures s'.claims[id] + StillOpen(s', id) <= s'.openings[id] {
      assert s.claims[id] + StillOpen(s, id) <= s.openings[id];
    }
  }

  lemma StepKeepsCounted(s: Sql, step: Step)
    requires Counted(s) && Enabled(s, step)
    ensures Counted(Apply(s, step))
  {
    if step.SUpdate? { ClaimKeepsCounted(s, s.picks[step.c].value, step.now); }
    else if step.SClaimLocked? { ClaimKeepsCounted(s, step.id, step.now); }
    else if step.SInsert? || step.SEnqueue? || step.SUpdateStatus? { WriteKeepsCounted(s, step); }
    else if step.SCrash? { CrashKeepsCounted(s); }
  }

  /** In every interleaving, crashes included, an id is claimed at most as often as it was set to
      Pending; while it is Pending, strictly less often. */
  lemma {:induction false} ClaimsNeverExceedOpenings(s: Sql, steps: seq<Step>)
    requires Counted(s) && CanRun(s, steps)
    ensures Counted(After(s, steps))
    decreases |steps|
  {
    if steps != [] {
      StepKeepsCounted(s, steps[0]);
      ClaimsNeverExceedOpenings(Apply(s, steps[0]), steps[1..]);
    }
  }

  /** A claim succeeds exactly on a row that is Pending at its UPDATE, however stale the SELECT; a second
      claimer of the same selection then misses. */
  lemma SecondClaimerMisses(s: Sql, c: nat, d: nat, id: TaskId, now: Time)
    requires c < |s.picks| && d < |s.picks| && c != d && s.picks[c] == s.picks[d] == Some(id)
    ensures var s1 := Apply(s, SUpdate(c, now));
            var s2 := Apply(s1, SUpdate(d, now));
            && (s1.claims[id] == s.claims[id] + 1 <==> ClaimHits(s.rows, id))
            && s2.claims == s1.claims && s2.rows == s1.rows
  {
  }

  // ---------- the one-step claim of MySQL ----------

  /** No selectable row that the claim passed over comes before the claimed one. */
  ghost predicate InTurn(rows: Table, locked: set<TaskId>, id: TaskId, now: Time) {
    id in rows && forall x :: x in locked && Selectable(rows, x, now) ==> RowLe(rows[id], rows[x])
  }

  /** Pending and not scheduled for later. */
  predicate Due(t: Task, now: Time) {
    t.status == Pending && (t.scheduledAt == None || t.scheduledAt.value <= now)
  }

  /** A locking claim takes, of the due Pending rows that no other transaction has locked, one of the least priority
      number and among those one of the earliest created; in particular two of them never take the same row. */
  lemma LockedClaimExactly(s: Sql, id: TaskId, now: Time, locked: set<TaskId>)
    ensures Enabled(s, SClaimLocked(id, now, locked))
       <==> id in s.rows && id !in locked && Due(s.rows[id], now)
            && forall x :: x in s.rows && x !in locked && Due(s.rows[x], now) ==>
                 var a, b := s.rows[id], s.rows[x];
                 a.priority < b.priority || (a.priority == b.priority && a.createdAt <= b.createdAt)
  {
  }

  /** A locking claim is claimer 0's SELECT and UPDATE done together exactly when it passes over no better row. */
  lemma LockedClaimIsTwoSteps(s: Sql, id: TaskId, now: Time, locked: set<TaskId>)
    requires Enabled(s, SClaimLocked(id, now, locked)) && |s.picks| > 0 && s.picks[0] == None
    ensures Enabled(s, SSelect(0, id, now)) <==> InTurn(s.rows, locked, id, now)
    ensures var mid := Apply(s, SSelect(0, id, now));
            Enabled(mid, SUpdate(0, now)) && Apply(mid, SUpdate(0, now)) == Apply(s, SClaimLocked(id, now, locked))
  {
    assert Apply(s, SSelect(0, id, now)).picks[0 := None] == s.picks;
  }

  /** Each locked claim replaced by claimer 0's SELECT and UPDATE. */
  function TwoStep(steps: seq<Step>): (r: seq<Step>)
    decreases |steps|
  {
    if steps == [] then []
    else if steps[0].SClaimLocked? then
      [SSelect(0, steps[0].id, steps[0].now), SUpdate(0, steps[0].now)] + TwoStep(steps[1..])
    else [steps[0]] + TwoStep(steps[1..])
  }

  /** Locking claims only, each in turn. */
  ghost predicate LocksInTurn(s: Sql, steps: seq<Step>)
    requires CanRun(s, steps)
    decreases |steps|
  {
    steps == [] ||
    (!steps[0].SSelect? && !steps[0].SUpdate?
     && (steps[0].SClaimLocked? ==> InTurn(s.rows, steps[0].locked, steps[0].id, steps[0].now))
     && LocksInTurn(Apply(s, steps[0]), steps[1..]))
  }

  predicate NothingPicked(s: Sql) {
    |s.picks| > 0 && forall c :: 0 <= c < |s.picks| ==> s.picks[c] == None
  }

  lemma Prepend(s: Sql, step: Step, rest: seq<Step>)
    requires Enabled(s, step) && CanRun(Apply(s, step), rest)
    ensures CanRun(s, [step] + rest) && After(s, [step] + rest) == After(Apply(s, step), rest)
  {
    assert ([step] + rest)[1..] == rest;
  }

  lemma PrependTwo(s: Sql, id: TaskId, now: Time, locked: set<TaskId>, rest: seq<Step>)
    requires Enabled(s, SClaimLocked(id, now, locked)) && InTurn(s.rows, locked, id, now) && NothingPicked(s)
    requires CanRun(Apply(s, SClaimLocked(id, now, locked)), rest)
    ensures var steps := [SSelect(0, id, now), SUpdate(0, now)] + rest;
            CanRun(s, steps) && After(s, steps) == After(Apply(s, SClaimLocked(id, now, locked)), rest)
  {
    var a, b := SSelect(0, id, now), SUpdate(0, now);
    LockedClaimIsTwoSteps(s, id, now, locked);
    Prepend(Apply(s, a), b, rest);
    Prepend(s, a, [b] + rest);
    assert [a, b] + rest == [a] + ([b] + rest);
  }

  lemma NothingGetsPicked(s: Sql, step: Step)
    requires Enabled(s, step) && NothingPicked(s) && !step.SSelect? && !step.SUpdate?
    ensures NothingPicked(Apply(s, step))
  {
  }

  /** Every run of locking transactions that passes over no better row is a run of the two-step protocol with the
      same outcome. */
  lemma {:induction false} LockedRunsAreTwoStepRuns(s: Sql, steps: seq<Step>)
    requires CanRun(s, steps) && LocksInTurn(s, steps) && NothingPicked(s)
    ensures CanRun(s, TwoStep(steps)) && After(s, TwoStep(steps)) == After(s, steps)
    decreases |steps|
  {
    if steps != [] {
      NothingGetsPicked(s, steps[0]);
      LockedRunsAreTwoStepRuns(Apply(s, steps[0]), steps[1..]);
      if steps[0].SClaimLocked? {
        PrependTwo(s, steps[0].id, steps[0].now, steps[0].locked, TwoStep(steps[1..]));
      } else {
        Prepend(s, steps[0], TwoStep(steps[1..]));
      }
    }
  }

  // ---------- what the statements write ----------

  /** The claim's UPDATE on row `a`. */
  predicate ClaimWrites(a: Task, b: Task, now: Time) {
    b == if a.status == Pending then a.(status := Running, startedAt := Some(now)) else a
  }

  /** UPDATE ... WHERE status IN (0, 1). */
  predicate CancelWrites(a: Task, b: Task) {
    b == if a.status == Pending || a.status == Delayed then a.(status := Cancelled) else a
  }

  predicate EnqueueWrites(t: Task, a: Task, b: Task) {
    b == a.(status := t.status, priority := t.priority, scheduledAt := t.scheduledAt, startedAt := t.startedAt,
            doneAt := t.doneAt, error := t.error, retries := t.retries)
  }

  predicate StatusWrites(status: TaskStatus, error: Blob, now: Time, a: Task, b: Task) {
    b == a.(status := status, error := error,
            doneAt := if status == Completed || status == Failed || status == Cancelled then Some(now) else None)
  }

  /** What each statement makes of the stored row `a` of `id`, column by column. */
  predicate RowWrites(s: Sql, step: Step, id: TaskId, a: Task, b: Task) {
    match step
    case SEnqueue(t) => if t.id == id then EnqueueWrites(t, a, b) else b == a
    case SUpdate(c, now) => if c < |s.picks| && s.picks[c] == Some(id) then ClaimWrites(a, b, now) else b == a
    case SClaimLocked(x, now, _) => if x == id then ClaimWrites(a, b, now) else b == a
    case SRemove(x) => if x == id then CancelWrites(a, b) else b == a
    case SUpdateStatus(x, status, error, now) => if x == id then StatusWrites(status, error, now, a, b) else b == a
    case SUpdateProgress(x, p) => b == if x == id then a.(progress := p) else a
    case SUpdateResult(x, r) => b == if x == id then a.(result := r) else a
    case SUpdateMetadata(x, m) => b == if x == id then a.(metadata := m) else a
    case SCancelBatch(batch) => if a.batch == batch then CancelWrites(a, b) else b == a
    case SCrash => Reopened(a, b)
    case _ => b == a
  }

  /** A new row is the task given to its INSERT or Enqueue. */
  predicate NewRow(step: Step, id: TaskId, b: Task) {
    (step.SInsert? || step.SEnqueue?) && step.t == b && b.id == id
  }

  ghost predicate StatementWrites(s: Sql, step: Step, id: TaskId)
    requires Enabled(s, step)
  {
    var rows := Apply(s, step).rows;
    id in rows ==> if id in s.rows then RowWrites(s, step, id, s.rows[id], rows[id]) else NewRow(step, id, rows[id])
  }

  lemma UpdatesWrite(s: Sql, step: Step, id: TaskId)
    requires Enabled(s, step) && (step.SUpdate? || step.SClaimLocked? || step.SUpdateStatus? || step.SEnqueue?)
    ensures StatementWrites(s, step, id)
  {
  }

  lemma ManyRowsWrite(s: Sql, step: Step, id: TaskId)
    requires Enabled(s, step) && (step.SCancelBatch? || step.SCrash?)
    ensures StatementWrites(s, step, id)
  {
  }

  /** Every statement of every run, crashes included, writes to every row what the columns above say. */
  lemma StatementWritesExactly(s: Sql, step: Step, id: TaskId)
    requires Enabled(s, step)
    ensures StatementWrites(s, step, id)
  {
    if step.SUpdate? || step.SClaimLocked? || step.SUpdateStatus? || step.SEnqueue? { UpdatesWrite(s, step, id); }
    else if step.SCancelBatch? || step.SCrash? { ManyRowsWrite(s, step, id); }
  }

  /** What no statement on a stored row writes; a re-enqueue may change the priority. */
  predicate SameSubmission(a: Task, b: Task) {
    && a.kind == b.kind && a.data == b.data && a.batch == b.batch && a.maxRetries == b.maxRetries
    && a.createdAt == b.createdAt
  }

  lemma StatementKeepsSubmission(s: Sql, step: Step, id: TaskId)
    requires Enabled(s, step) && id in s.rows && step != SDelete(id)
    ensures id in Apply(s, step).rows && SameSubmission(s.rows[id], Apply(s, step).rows[id])
  {
    StepKeepsRows(s, step);
    StatementWritesExactly(s, step, id);
    RowKeepsSubmission(s, step, id, s.rows[id], Apply(s, step).rows[id]);
  }

  lemma RowKeepsSubmission(s: Sql, step: Step, id: TaskId, a: Task, b: Task)
    requires RowWrites(s, step, id, a, b)
    ensures SameSubmission(a, b)
  {
  }

  /** A row keeps kind, data, batch, retry limit and creation time through every interleaving and crash until it is
      deleted. */
  lemma {:induction false} RowsKeepSubmission(s: Sql, steps: seq<Step>, id: TaskId)
    requires CanRun(s, steps) && id in s.rows && forall k :: 0 <= k < |steps| ==> steps[k] != SDelete(id)
    ensures id in After(s, steps).rows && SameSubmission(s.rows[id], After(s, steps).rows[id])
    decreases |steps|
  {
    if steps != [] {
      StatementKeepsSubmission(s, steps[0], id);
      RowsKeepSubmission(Apply(s, steps[0]), steps[1..], id);
    }
  }

  // ---------- delayed rows ----------

  /** The calls that can make a Delayed row something else than Delayed or Cancelled. */
  predicate Reopens(step: Step, id: TaskId) {
    match step
    case SEnqueue(t) => t.id == id
    case SUpdateStatus(x, _, _, _) => x == id
    case SDelete(x) => x == id
    case _ => false
  }

  predicate Shelved(s: Sql, id: TaskId) {
    id in s.rows && (s.rows[id].status == Delayed || s.rows[id].status == Cancelled)
  }

  lemma ClaimsMissShelved(s: Sql, step: Step, id: TaskId)
    requires Enabled(s, step) && Shelved(s, id) && (step.SUpdate? || step.SClaimLocked?)
    ensures Shelved(Apply(s, step), id) && Apply(s, step).claims[id] == s.claims[id]
  {
  }

  lemma StepKeepsShelved(s: Sql, step: Step, id: TaskId)
    requires Enabled(s, step) && Shelved(s, id) && !Reopens(step, id)
    ensures Shelved(Apply(s, step), id) && Apply(s, step).claims[id] == s.claims[id]
  {
    if step.SUpdate? || step.SClaimLocked? { ClaimsMissShelved(s, step, id); }
  }

  /** A row stored as Delayed is never claimed, at any time, unless a later call rewrites its status. */
  lemma {:induction false} DelayedIsNeverClaimed(s: Sql, steps: seq<Step>, id: TaskId)
    requires CanRun(s, steps)
    requires Shelved(s, id)
    requires forall k :: 0 <= k < |steps| ==> !Reopens(steps[k], id)
    ensures Shelved(After(s, steps), id) && After(s, steps).claims[id] == s.claims[id]
    decreases |steps|
  {
    if steps != [] {
      StepKeepsShelved(s, steps[0], id);
      DelayedIsNeverClaimed(Apply(s, steps[0]), steps[1..], id);
    }
  }

  /** A waiting row that Remove takes is Cancelled and otherwise as it was, and no claimer gets it in any run that does
      not open it again, whatever was selected before. */
  lemma RemovedIsNeverClaimed(s: Sql, steps: seq<Step>, id: TaskId)
    requires id in s.rows && (s.rows[id].status == Pending || s.rows[id].status == Delayed)
    requires CanRun(Apply(s, SRemove(id)), steps)
    requires forall k :: 0 <= k < |steps| ==> !Reopens(steps[k], id)
    ensures Apply(s, SRemove(id)).rows == s.rows[id := s.rows[id].(status := Cancelled)]
    ensures var e := After(Apply(s, SRemove(id)), steps); Shelved(e, id) && e.claims[id] == s.claims[id]
  {
    DelayedIsNeverClaimed(Apply(s, SRemove(id)), steps, id);
  }

  // ---------- crash recovery over whole runs ----------

  function Kept(ids: set<TaskId>, step: Step): set<TaskId> {
    match step
    case SInsert(t) => ids + {t.id}
    case SEnqueue(t) => ids + {t.id}
    case SDelete(id) => ids - {id}
    case _ => ids
  }

  /** The ids a run stored and did not delete. */
  function Undeleted(ids: set<TaskId>, steps: seq<Step>): set<TaskId>
    decreases |steps|
  {
    if steps == [] then ids else Undeleted(Kept(ids, steps[0]), steps[1..])
  }

  lemma StepKeepsRows(s: Sql, step: Step)
    requires Enabled(s, step)
    ensures Apply(s, step).rows.Keys == Kept(s.rows.Keys, step)
  {
  }

  lemma {:induction false} RowsAreUndeleted(s: Sql, steps: seq<Step>)
    requires CanRun(s, steps)
    ensures After(s, steps).rows.Keys == Undeleted(s.rows.Keys, steps)
    decreases |steps|
  {
    if steps != [] {
      StepKeepsRows(s, steps[0]);
      RowsAreUndeleted(Apply(s, steps[0]), steps[1..]);
    }
  }

  /** Cut a run at any step and restart: every stored and undeleted row is there, none is Running, those
      that were Running are claimable again and differ only in status, start time and error, all others are as they
      were, and the claim count still holds. */
  lemma CrashAnywhereLosesNothing(claimers: nat, steps: seq<Step>)
    requires CanRun(Start(claimers), steps)
    ensures var s := After(Start(claimers), steps);
            var r := Apply(s, SCrash);
            && r.rows.Keys == Undeleted({}, steps)
            && (forall id :: id in r.rows ==>
                  && r.rows[id].status != Running && Reopened(s.rows[id], r.rows[id])
                  && (s.rows[id].status == Running ==> ClaimHits(r.rows, id)))
            && Counted(r)
  {
    var s := After(Start(claimers), steps);
    var none: Table := map[];
    assert none.Keys == {};
    RowsAreUndeleted(Start(claimers), steps);
    ClaimsNeverExceedOpenings(Start(claimers), steps);
    RecoverExactly(s.rows);
    StepKeepsCounted(s, SCrash);
  }
}
