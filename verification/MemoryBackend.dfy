/** The in-memory backend (pool/memory_backend.go): a task table, an array heap and an index of queued
    ids, updated in place. Every method is one region under the backend's lock and does to the state what
    the function of the same name in `MemoryQueue` says. */
module MemoryBackend {
  import opened Tasks
  import opened Heaps
  import opened StoreSpec
  import Q = MemoryQueue
  import W = Wakeup

  const DEFAULT_CAPACITY := 100000

  /** What one round of `dequeue` does under the lock. */
  datatype Poll = Got(task: Task) | ShutDown | Sleep(nap: W.Nap)

  function CountOf(counts: map<TaskStatus, nat>, status: TaskStatus): nat {
    if status in counts then counts[status] else 0
  }

  /** `counts` is right for `tasks`. */
  ghost predicate Tallied(tasks: map<TaskId, Task>, counts: map<TaskStatus, nat>) {
    forall s :: CountOf(counts, s) == |InState(tasks, s)| && (s !in counts ==> s == Paused)
  }

  lemma OneMore(tasks: map<TaskId, Task>, id: TaskId, t: Task, s: TaskStatus)
    requires id !in tasks
    ensures |InState(tasks[id := t], s)| == |InState(tasks, s)| + (if t.status == s then 1 else 0)
  {
    assert InState(tasks[id := t], s) == if t.status == s then InState(tasks, s) + {id} else InState(tasks, s);
  }

  lemma TallyOne(tasks: map<TaskId, Task>, counts: map<TaskStatus, nat>, id: TaskId, t: Task)
    requires id !in tasks && Tallied(tasks, counts)
    ensures Tallied(tasks[id := t], counts[t.status := CountOf(counts, t.status) + 1])
  {
    forall s { OneMore(tasks, id, t, s); }
  }

  class MemoryBackend {
    var tasks: map<TaskId, Task>
    var items: MemHeap
    const cap: nat
    var closed: bool
    var gen: nat
    var progress: map<TaskId, (int, int)>
    var inQueue: set<TaskId>

    ghost function State(): Q.MemState
      reads this, items
    {
      Q.MemState(tasks, items.h, cap, closed, gen, progress, inQueue)
    }

    constructor (maxQueueSize: int)
      ensures fresh(items)
      ensures State() == Q.Empty(if maxQueueSize <= 0 then DEFAULT_CAPACITY else maxQueueSize)
    {
      tasks := map[];
      items := new MemHeap([]);
      cap := if maxQueueSize <= 0 then DEFAULT_CAPACITY else maxQueueSize;
      closed := false;
      gen := 0;
      progress := map[];
      inQueue := {};
    }

    /** A second Close would close a closed channel. */
    method Close()
      requires !closed
      modifies this
      ensures State() == Q.Close(old(State())) && items == old(items)
    {
      closed := true;
      gen := gen + 1;
    }

    method Save(t: Task)
      modifies this
      ensures State() == Q.Save(old(State()), t) && items == old(items)
    {
      tasks := tasks[t.id := t];
    }

    method Get(id: TaskId) returns (r: Result<Task>)
      ensures r == if id in tasks then Ok(tasks[id]) else Err(TaskNotFound)
    {
      if id !in tasks {
        return Err(TaskNotFound);
      }
      return Ok(tasks[id]);
    }

    method Delete(id: TaskId)
      modifies this
      ensures State() == Q.Delete(old(State()), id) && items == old(items)
    {
      tasks := tasks - {id};
      progress := progress - {id};
      inQueue := inQueue - {id};
    }

    method Enqueue(t: Task) returns (r: Result<()>)
      modifies this, items
      ensures State() == Q.Enqueue(old(State()), t) && items == old(items)
      ensures r.Ok? <==> Q.Accepts(old(State()))
      ensures r.Err? ==> r.error == if old(closed) then QueueClosed else QueueFull
    {
      if closed {
        return Err(QueueClosed);
      }
      if |items.h| >= cap {
        return Err(QueueFull);
      }
      tasks := tasks[t.id := t];
      if t.id in inQueue {
        gen := gen + 1;
        return Ok(());
      }
      inQueue := inQueue + {t.id};
      items.Push(MemItem(t.id, t.priority, t.createdAt));
      gen := gen + 1;
      return Ok(());
    }

    /** The scan for the first ready item, remembering the earliest schedule passed over. */
    method Scan(now: Time) returns (k: nat, earliest: Option<Time>)
      ensures k == Q.FirstReady(State(), now, 0)
      ensures k == |items.h| ==> earliest == W.Earliest(State(), |items.h|)
    {
      k := 0;
      earliest := None;
      while k < |items.h|
        invariant k <= |items.h|
        invariant Q.FirstReady(State(), now, 0) == Q.FirstReady(State(), now, k)
        invariant earliest == W.Earliest(State(), k)
      {
        var id := items.h[k].id;
        if id in tasks && tasks[id].Live() {
          var at := tasks[id].scheduledAt;
          if at.None? || at.value < now {
            return;
          }
          if earliest.None? || at.value < earliest.value {
            earliest := at;
          }
        }
        k := k + 1;
      }
    }

    /** One round of `dequeue`: the scan comes first, then the closed flag; the caller's context is only
        looked at while asleep. The claimed task is returned as a copy. */
    method Dequeue(now: Time) returns (r: Poll)
      modifies this, items
      ensures State() == Q.Dequeue(old(State()), now) && items == old(items)
      ensures var s := old(State());
              var k := Q.FirstReady(s, now, 0);
              r == if k < |s.items| then Got(tasks[s.items[k].id])
                   else if s.closed then ShutDown
                   else Sleep(W.Nap(s.gen, W.WakeTime(s, now)))
    {
      var k, earliest := Scan(now);
      if k < |items.h| {
        var item := items.Remove(k);
        inQueue := inQueue - {item.id};
        tasks := tasks[item.id := tasks[item.id].(status := Running, startedAt := Some(now))];
        return Got(tasks[item.id]);
      }
      if closed {
        return ShutDown;
      }
      var wake := now;
      if earliest.Some? && earliest.value > now {
        wake := earliest.value;
      }
      return Sleep(W.Nap(gen, wake));
    }

    /** The number of Pending tasks that are due. */
    method Pending(now: Time) returns (n: nat)
      ensures n == |set id | id in tasks && tasks[id].status == TaskStatus.Pending && tasks[id].DueBefore(now)|
    {
      n := 0;
      var todo := tasks.Keys;
      ghost var counted: set<TaskId> := {};
      while todo != {}
        invariant todo <= tasks.Keys
        invariant counted == set id | id in tasks && id !in todo && tasks[id].status == TaskStatus.Pending
                                      && tasks[id].DueBefore(now)
        invariant n == |counted|
        decreases |todo|
      {
        var id :| id in todo;
        if tasks[id].status == TaskStatus.Pending && tasks[id].DueBefore(now) {
          n := n + 1;
          counted := counted + {id};
        }
        todo := todo - {id};
      }
      assert counted == set id | id in tasks && tasks[id].status == TaskStatus.Pending && tasks[id].DueBefore(now);
    }

    method Remove(id: TaskId) returns (ok: bool)
      modifies this, items
      ensures State() == Q.Remove(old(State()), id) && items == old(items)
      ensures ok <==> old(Q.CanRemove(State(), id))
    {
      if id !in tasks {
        return false;
      }
      if !tasks[id].Live() {
        return false;
      }
      var i: nat := 0;
      while i < |items.h|
        invariant i <= |items.h| && items.h == old(items.h) && items == old(items)
        invariant Q.FirstOf(items.h, id, 0) == Q.FirstOf(items.h, id, i)
        invariant tasks == old(tasks) && inQueue == old(inQueue) && closed == old(closed)
        invariant gen == old(gen) && progress == old(progress)
      {
        if items.h[i].id == id {
          var _ := items.Remove(i);
          break;
        }
        i := i + 1;
      }
      inQueue := inQueue - {id};
      tasks := tasks[id := tasks[id].(status := Cancelled)];
      return true;
    }

    method UpdateStatus(id: TaskId, status: TaskStatus, error: Blob, now: Time) returns (r: Result<()>)
      modifies this
      ensures State() == Q.UpdateStatus(old(State()), id, status, error, now) && items == old(items)
      ensures r == if id in old(tasks) then Ok(()) else Err(TaskNotFound)
      ensures r.Ok? && (status == Completed || status == Failed || status == Cancelled) ==>
                tasks[id].doneAt == Some(now)
    {
      if id !in tasks {
        return Err(TaskNotFound);
      }
      var t := tasks[id].(status := status, error := error);
      if status == Completed || status == Failed || status == Cancelled {
        t := t.(doneAt := Some(now));
      }
      tasks := tasks[id := t];
      return Ok(());
    }

    method UpdateProgress(id: TaskId, current: int, total: int)
      modifies this
      ensures State() == Q.UpdateProgress(old(State()), id, (current, total)) && items == old(items)
      ensures progress == old(progress)[id := (current, total)]
    {
      progress := progress[id := (current, total)];
      if id in tasks {
        tasks := tasks[id := tasks[id].(progress := (current, total))];
      }
    }

    method UpdateResult(id: TaskId, r: Blob)
      modifies this
      ensures State() == Q.UpdateResult(old(State()), id, r) && items == old(items)
    {
      if id in tasks {
        tasks := tasks[id := tasks[id].(result := r)];
      }
    }

    method UpdateMetadata(id: TaskId, d: Blob)
      modifies this
      ensures State() == Q.UpdateMetadata(old(State()), id, d) && items == old(items)
    {
      if id in tasks {
        tasks := tasks[id := tasks[id].(metadata := d)];
      }
    }

    /** How many tasks are in each state; every state but Paused is always present. */
    method CountByStatus() returns (counts: map<TaskStatus, nat>)
      ensures Tallied(tasks, counts)
    {
      counts := map[TaskStatus.Pending := 0, Delayed := 0, Running := 0, Completed := 0, Failed := 0,
                    Cancelled := 0, Retrying := 0];
      var todo := tasks.Keys;
      ghost var seen: map<TaskId, Task> := map[];
      while todo != {}
        invariant todo <= tasks.Keys && seen.Keys == tasks.Keys - todo
        invariant forall id :: id in seen ==> seen[id] == tasks[id]
        invariant Tallied(seen, counts)
        decreases |todo|
      {
        var id :| id in todo;
        TallyOne(seen, counts, id, tasks[id]);
        seen := seen[id := tasks[id]];
        counts := counts[tasks[id].status := CountOf(counts, tasks[id].status) + 1];
        todo := todo - {id};
      }
      assert seen == tasks;
    }

    /** Cancels the batch's waiting tasks, then rebuilds the heap from the items whose task is not
        waiting. */
    method CancelBatch(b: BatchId) returns (cancelled: nat)
      modifies this
      ensures State() == Q.CancelBatch(old(State()), b) && fresh(items)
      ensures cancelled == |WaitingIn(old(tasks), b)|
    {
      cancelled := CancelTasks(b);
      var remaining: seq<MemItem> := [];
      var i: nat := 0;
      while i < |items.h|
        invariant i <= |items.h| && remaining == Q.Dormant(tasks, items.h[..i])
      {
        var item := items.h[i];
        assert items.h[..i + 1][..i] == items.h[..i];
        if item.id in tasks && !tasks[item.id].Live() {
          remaining := remaining + [item];
        }
        i := i + 1;
      }
      assert items.h[..i] == items.h;
      var kept := new MemHeap(remaining);
      kept.Init();
      items := kept;
      inQueue := set j | 0 <= j < |items.h| :: items.h[j].id;
    }

    method CancelTasks(b: BatchId) returns (cancelled: nat)
      modifies this`tasks
      ensures tasks == TasksCancelled(old(tasks), b)
      ensures cancelled == |WaitingIn(old(tasks), b)|
    {
      cancelled := 0;
      var todo := tasks.Keys;
      CancelBounds(tasks, b);
      while todo != {}
        invariant todo <= tasks.Keys == old(tasks).Keys
        invariant tasks == PartlyCancelled(old(tasks), todo, b)
        invariant cancelled == |WaitingIn(old(tasks), b) - todo|
        decreases |todo|
      {
        var id :| id in todo;
        CancelOne(old(tasks), todo, b, id);
        if tasks[id].batch == b && tasks[id].Live() {
          tasks := tasks[id := tasks[id].(status := Cancelled)];
          cancelled := cancelled + 1;
        }
        todo := todo - {id};
      }
    }

    method Recover()
      modifies this`tasks
      ensures State() == Q.Recover(old(State())) && items == old(items)
      ensures tasks.Keys == old(tasks).Keys && forall id :: id in tasks ==>
                var t := old(tasks)[id];
                tasks[id] == if t.status == Running || t.status == Retrying
                             then t.(status := TaskStatus.Pending, startedAt := None, error := EMPTY) else t
    {
      var todo := tasks.Keys;
      while todo != {}
        invariant todo <= tasks.Keys == old(tasks).Keys
        invariant forall id :: id in tasks ==>
                    tasks[id] == if id in todo then old(tasks)[id] else Q.Restarted(old(tasks)[id])
        decreases |todo|
      {
        var id :| id in todo;
        if tasks[id].status == Running || tasks[id].status == Retrying {
          tasks := tasks[id := tasks[id].(status := TaskStatus.Pending, startedAt := None, error := EMPTY)];
        }
        todo := todo - {id};
      }
    }
  }
}
