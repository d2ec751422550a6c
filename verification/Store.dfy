/** The task store as the engine sees it: the task table and the set of queued ids.

    This is the simple specification that the memory backend's heap and index implement; module
    `MemoryQueue` proves the refinement and module `Engine` runs the worker protocol over it. */
module StoreSpec {
  import opened Tasks

  datatype Store = Store(tasks: map<TaskId, Task>, queue: set<TaskId>)

  function Saved(s: Store, t: Task): Store {
    s.(tasks := s.tasks[t.id := t])
  }

  function Enqueued(s: Store, t: Task): Store {
    Store(s.tasks[t.id := t], s.queue + {t.id})
  }

  /** A worker may take `id` now. */
  predicate Claimable(s: Store, id: TaskId, now: Time) {
    id in s.queue && id in s.tasks && s.tasks[id].Live() && s.tasks[id].DueBefore(now)
  }

  function Claimed(s: Store, id: TaskId, now: Time): Store
    requires id in s.tasks
  {
    Store(s.tasks[id := s.tasks[id].(status := Running, startedAt := Some(now))], s.queue - {id})
  }

  /** The queue-level removal, which only touches waiting tasks. */
  predicate Removable(s: Store, id: TaskId) {
    id in s.tasks && s.tasks[id].Live()
  }

  function Withdrawn(s: Store, id: TaskId): Store
    requires id in s.tasks
  {
    Store(s.tasks[id := s.tasks[id].(status := Cancelled)], s.queue - {id})
  }

  function Deleted(s: Store, id: TaskId): Store {
    Store(s.tasks - {id}, s.queue - {id})
  }

  function StatusSet(t: Task, status: TaskStatus, error: Blob, now: Time): Task {
    t.(status := status, error := error, doneAt := if StampsDone(status) then Some(now) else t.doneAt)
  }

  /** UpdateStatus; on a missing id nothing changes. */
  function WithStatus(s: Store, id: TaskId, status: TaskStatus, error: Blob, now: Time): Store {
    if id in s.tasks then s.(tasks := s.tasks[id := StatusSet(s.tasks[id], status, error, now)]) else s
  }

  function WithProgress(s: Store, id: TaskId, p: (int, int)): Store {
    if id in s.tasks then s.(tasks := s.tasks[id := s.tasks[id].(progress := p)]) else s
  }

  function WithResult(s: Store, id: TaskId, r: Blob): Store {
    if id in s.tasks then s.(tasks := s.tasks[id := s.tasks[id].(result := r)]) else s
  }

  function WithMetadata(s: Store, id: TaskId, m: Blob): Store {
    if id in s.tasks then s.(tasks := s.tasks[id := s.tasks[id].(metadata := m)]) else s
  }

  function CancelIn(t: Task, b: BatchId): Task {
    if t.batch == b && t.Live() then t.(status := Cancelled) else t
  }

  function TasksCancelled(tasks: map<TaskId, Task>, b: BatchId): map<TaskId, Task> {
    map id | id in tasks :: CancelIn(tasks[id], b)
  }

  /** The tasks CancelBatch cancels. */
  ghost function WaitingIn(tasks: map<TaskId, Task>, b: BatchId): set<TaskId> {
    set id | id in tasks && tasks[id].batch == b && tasks[id].Live()
  }

  /** The table while CancelBatch still has `todo` to visit. */
  ghost function PartlyCancelled(tasks: map<TaskId, Task>, todo: set<TaskId>, b: BatchId): map<TaskId, Task> {
    map id | id in tasks :: if id in todo then tasks[id] else CancelIn(tasks[id], b)
  }

  lemma CancelOne(tasks: map<TaskId, Task>, todo: set<TaskId>, b: BatchId, id: TaskId)
    requires id in todo && id in tasks
    ensures var t, now, next := tasks[id], PartlyCancelled(tasks, todo, b), PartlyCancelled(tasks, todo - {id}, b);
            && next == (if t.batch == b && t.Live() then now[id := t.(status := Cancelled)] else now)
            && |WaitingIn(tasks, b) - (todo - {id})|
               == |WaitingIn(tasks, b) - todo| + (if t.batch == b && t.Live() then 1 else 0)
  {
    var t, seen := tasks[id], WaitingIn(tasks, b) - todo;
    assert WaitingIn(tasks, b) - (todo - {id}) == if t.batch == b && t.Live() then seen + {id} else seen;
  }

  lemma CancelBounds(tasks: map<TaskId, Task>, b: BatchId)
    ensures PartlyCancelled(tasks, tasks.Keys, b) == tasks && PartlyCancelled(tasks, {}, b) == TasksCancelled(tasks, b)
    ensures WaitingIn(tasks, b) - tasks.Keys == {} && WaitingIn(tasks, b) - {} == WaitingIn(tasks, b)
  {
  }

  /** The memory backend's CancelBatch: the batch's waiting tasks are cancelled, and the queue keeps
      exactly the ids whose task is not waiting. */
  function BatchCancelled(s: Store, b: BatchId): Store {
    var tasks := TasksCancelled(s.tasks, b);
    Store(tasks, set id | id in s.queue && id in tasks && !tasks[id].Live())
  }
}
