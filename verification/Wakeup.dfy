/** Blocking dequeuers and their wake-up channel (pool/memory_backend.go).

    A dequeuer that finds nothing captures the current `wait` channel and its wake time under the lock,
    then sleeps. The question is whether it can sleep past a task that became due. */
module Wakeup {
  import opened Tasks
  import opened Heaps
  import opened MemoryQueue

  datatype Nap = Nap(gen: nat, wake: Time)

  /** The least schedule among the waiting items at the first `n` positions. */
  function Earliest(m: MemState, n: nat): (r: Option<Time>)
    requires n <= |m.items|
    ensures forall i :: 0 <= i < n && Waiting(m.tasks, m.items[i]) && m.tasks[m.items[i].id].scheduledAt.Some?
              ==> r.Some? && r.value <= m.tasks[m.items[i].id].scheduledAt.value
    ensures r.Some? ==> (exists i :: 0 <= i < n && Waiting(m.tasks, m.items[i])
                                       && m.tasks[m.items[i].id].scheduledAt == r)
  {
    if n == 0 then None
    else
      var e := Earliest(m, n - 1);
      var x := m.items[n - 1];
      if Waiting(m.tasks, x) && m.tasks[x.id].scheduledAt.Some?
         && (e.None? || m.tasks[x.id].scheduledAt.value < e.value)
      then m.tasks[x.id].scheduledAt
      else e
  }

  /** With nothing delayed the source sleeps for a zero duration. */
  function WakeTime(m: MemState, now: Time): Time {
    var e := Earliest(m, |m.items|);
    if e.Some? && e.value > now then e.value else now
  }

  /** The channel captured by the sleeper has been closed. */
  predicate Rung(m: MemState, nap: Nap) {
    nap.gen < m.gen
  }

  ghost predicate DueNoEarlier(m: MemState, wake: Time) {
    forall x :: x in m.items && Waiting(m.tasks, x)
      ==> m.tasks[x.id].scheduledAt.Some? && wake <= m.tasks[x.id].scheduledAt.value
  }

  /** Either the sleeper has been rung or nothing in the heap is due before its wake time. */
  ghost predicate Armed(m: MemState, nap: Nap) {
    nap.gen <= m.gen && (Rung(m, nap) || DueNoEarlier(m, nap.wake))
  }

  lemma FallingAsleepIsArmed(m: MemState, now: Time)
    requires FirstReady(m, now, 0) == |m.items|
    ensures Armed(m, Nap(m.gen, WakeTime(m, now)))
  {
    forall x | x in m.items && Waiting(m.tasks, x)
      ensures m.tasks[x.id].scheduledAt.Some? && WakeTime(m, now) <= m.tasks[x.id].scheduledAt.value
    {
      var i :| 0 <= i < |m.items| && m.items[i] == x;
      assert !Ready(m.tasks, m.items[i], now);
    }
  }

  /** The nap has no length exactly when nothing is waiting or something waiting falls due at this very instant: a
      dequeuer with nothing delayed polls without a pause. */
  lemma NapIsEmptyExactly(m: MemState, now: Time)
    requires FirstReady(m, now, 0) == |m.items|
    ensures WakeTime(m, now) == now
       <==> (forall i :: 0 <= i < |m.items| && Waiting(m.tasks, m.items[i]) ==>
               exists j :: 0 <= j < |m.items| && Waiting(m.tasks, m.items[j])
                           && m.tasks[m.items[j].id].scheduledAt == Some(now))
  {
    forall i | 0 <= i < |m.items| && Waiting(m.tasks, m.items[i])
      ensures m.tasks[m.items[i].id].scheduledAt.Some? && now <= m.tasks[m.items[i].id].scheduledAt.value
    {
      assert !Ready(m.tasks, m.items[i], now);
    }
  }

  /** An armed sleeper whose timer has not fired misses nothing. */
  lemma SleeperMissesNothing(m: MemState, nap: Nap, now: Time)
    requires Armed(m, nap) && !Rung(m, nap) && now <= nap.wake
    ensures FirstReady(m, now, 0) == |m.items|
  {
    forall i | 0 <= i < |m.items| ensures !Ready(m.tasks, m.items[i], now) {
      assert m.items[i] in m.items;
    }
  }

  /** `t` may sit in the heap without disturbing the sleeper. */
  predicate Harmless(t: Task, wake: Time) {
    t.Live() ==> t.scheduledAt.Some? && wake <= t.scheduledAt.value
  }

  /** The calls that rewrite a task that already has a heap item without ringing the channel. */
  ghost predicate Quiet(m: MemState, wake: Time, op: Op) {
    match op
    case OpSave(t) => t.id in IdBag(m.items) ==> Harmless(t, wake)
    case OpUpdateStatus(id, status, error, now) =>
      id in IdBag(m.items) && id in m.tasks ==> Harmless(m.tasks[id].(status := status), wake)
    case OpRecover =>
      forall id :: id in IdBag(m.items) && id in m.tasks ==> Harmless(Restarted(m.tasks[id]), wake)
    case _ => true
  }

  lemma RemovedIsSubset(s: seq<MemItem>, i: nat)
    requires i < |s|
    ensures forall x :: x in Removed(s, i) ==> x in s
  {
    RemoveContents(s, i);
    forall x | x in Removed(s, i) ensures x in s {
      assert x in multiset(Removed(s, i));
      assert x in multiset(s);
    }
  }

  lemma {:induction false} DormantAreNotWaiting(tasks: map<TaskId, Task>, items: seq<MemItem>)
    ensures forall x :: x in Dormant(tasks, items) ==> !Waiting(tasks, x)
  {
    if items != [] { DormantAreNotWaiting(tasks, items[..|items| - 1]); }
  }

  lemma CancelBatchLeavesNoneWaiting(m: MemState, b: BatchId)
    ensures var m' := CancelBatch(m, b); forall x :: x in m'.items ==> !Waiting(m'.tasks, x)
  {
    var m' := CancelBatch(m, b);
    var kept := Dormant(m'.tasks, m.items);
    DormantAreNotWaiting(m'.tasks, m.items);
    HeapifyShuffles(kept, |kept| / 2);
    forall x | x in m'.items ensures !Waiting(m'.tasks, x) {
      assert x in multiset(m'.items);
      assert x in multiset(kept);
    }
  }

  lemma HasItem(m: MemState, id: TaskId)
    ensures id in IdBag(m.items) <==> exists x :: x in m.items && x.id == id
  {
    IdBagHas(m.items, id);
    if i :| 0 <= i < |m.items| && m.items[i].id == id { assert m.items[i] in m.items; }
  }

  /** Over an unchanged heap, the wake time bounds every waiting item exactly when each task with an item is
      harmless. */
  lemma ArmedByTasks(m: MemState, wake: Time)
    ensures DueNoEarlier(m, wake)
       <==> (forall id :: id in IdBag(m.items) && id in m.tasks ==> Harmless(m.tasks[id], wake))
  {
    forall id ensures id in IdBag(m.items) <==> exists x :: x in m.items && x.id == id { HasItem(m, id); }
    if DueNoEarlier(m, wake) {
      forall id | id in IdBag(m.items) && id in m.tasks ensures Harmless(m.tasks[id], wake) {
        var x :| x in m.items && x.id == id;
      }
    }
  }

  lemma RewriteEffect(m: MemState, op: Op, wake: Time)
    requires op.OpSave? || op.OpUpdateStatus? || op.OpRecover?
    requires forall id :: id in IdBag(m.items) && id in m.tasks ==> Harmless(m.tasks[id], wake)
    ensures var m' := Apply(m, op);
            && m'.items == m.items && m'.gen == m.gen
            && ((forall id :: id in IdBag(m.items) && id in m'.tasks ==> Harmless(m'.tasks[id], wake))
                <==> Quiet(m, wake, op))
  {
  }

  /** A status write, a save or a restart leaves an unrung sleeper armed exactly when it is quiet. */
  lemma RewriteArmsExactly(m: MemState, nap: Nap, op: Op)
    requires Armed(m, nap) && !Rung(m, nap)
    requires op.OpSave? || op.OpUpdateStatus? || op.OpRecover?
    ensures Armed(Apply(m, op), nap) <==> Quiet(m, nap.wake, op)
  {
    ArmedByTasks(m, nap.wake);
    RewriteEffect(m, op, nap.wake);
    ArmedByTasks(Apply(m, op), nap.wake);
  }

  lemma QueueOpsKeepArmed(m: MemState, nap: Nap, op: Op)
    requires Armed(m, nap) && !op.OpSave? && !op.OpUpdateStatus? && !op.OpRecover?
    ensures Armed(Apply(m, op), nap)
  {
    match op
    case OpDequeue(now) =>
      var k := FirstReady(m, now, 0);
      if k < |m.items| { RemovedIsSubset(m.items, k); }
    case OpRemove(id) =>
      var k := FirstOf(m.items, id, 0);
      if k < |m.items| { RemovedIsSubset(m.items, k); }
    case OpCancelBatch(b) => CancelBatchLeavesNoneWaiting(m, b);
    case _ =>
  }

  /** No step leaves a sleeper behind, except a rewrite of a queued task that is not quiet: every accepted
      Enqueue and Close rings it, and the rest only shrinks what is due. */
  lemma StepArmsExactly(m: MemState, nap: Nap, op: Op)
    requires Armed(m, nap)
    ensures Armed(Apply(m, op), nap) <==> (Rung(m, nap) || Quiet(m, nap.wake, op))
  {
    if op.OpSave? || op.OpUpdateStatus? || op.OpRecover? {
      if !Rung(m, nap) { RewriteArmsExactly(m, nap, op); }
    } else {
      QueueOpsKeepArmed(m, nap, op);
    }
  }

  ghost predicate QuietRun(m: MemState, nap: Nap, ops: seq<Op>)
    decreases |ops|
  {
    ops == [] || ((Rung(m, nap) || Quiet(m, nap.wake, ops[0])) && QuietRun(Apply(m, ops[0]), nap, ops[1..]))
  }

  lemma {:induction false} RunKeepsArmed(m: MemState, nap: Nap, ops: seq<Op>)
    requires Armed(m, nap) && QuietRun(m, nap, ops)
    ensures Armed(After(m, ops), nap)
    decreases |ops|
  {
    if ops != [] {
      StepArmsExactly(m, nap, ops[0]);
      RunKeepsArmed(Apply(m, ops[0]), nap, ops[1..]);
    }
  }

  /** No lost wake-up: a dequeuer that fell asleep at `now` and has not been rung after any quiet run has
      nothing to claim at any time up to its wake time. */
  lemma NoLostWakeup(m: MemState, now: Time, ops: seq<Op>, later: Time)
    requires FirstReady(m, now, 0) == |m.items|
    requires QuietRun(m, Nap(m.gen, WakeTime(m, now)), ops)
    requires later <= WakeTime(m, now)
    ensures var e := After(m, ops); Rung(e, Nap(m.gen, WakeTime(m, now))) || FirstReady(e, later, 0) == |e.items|
  {
    var nap := Nap(m.gen, WakeTime(m, now));
    FallingAsleepIsArmed(m, now);
    RunKeepsArmed(m, nap, ops);
    if !Rung(After(m, ops), nap) { SleeperMissesNothing(After(m, ops), nap, later); }
  }

  // ---------- the pool's own calls ----------

  /** What the pool calls after its start: it saves only fresh ids and writes only statuses that do not wait. */
  ghost predicate PoolCall(m: MemState, op: Op) {
    match op
    case OpSave(t) => t.id !in IdBag(m.items)
    case OpUpdateStatus(_, status, _, _) => status != Pending && status != Delayed
    case OpRecover => false
    case _ => true
  }

  ghost predicate PoolRun(m: MemState, ops: seq<Op>)
    decreases |ops|
  {
    ops == [] || (PoolCall(m, ops[0]) && PoolRun(Apply(m, ops[0]), ops[1..]))
  }

  lemma {:induction false} PoolRunsAreQuiet(m: MemState, nap: Nap, ops: seq<Op>)
    requires PoolRun(m, ops)
    ensures QuietRun(m, nap, ops)
    decreases |ops|
  {
    if ops != [] { PoolRunsAreQuiet(Apply(m, ops[0]), nap, ops[1..]); }
  }

  /** The pool itself never loses a wake-up, whatever it calls in whatever order. */
  lemma PoolLosesNoWakeup(m: MemState, now: Time, ops: seq<Op>, later: Time)
    requires FirstReady(m, now, 0) == |m.items| && PoolRun(m, ops) && later <= WakeTime(m, now)
    ensures var e := After(m, ops); Rung(e, Nap(m.gen, WakeTime(m, now))) || FirstReady(e, later, 0) == |e.items|
  {
    PoolRunsAreQuiet(m, Nap(m.gen, WakeTime(m, now)), ops);
    NoLostWakeup(m, now, ops, later);
  }
}
