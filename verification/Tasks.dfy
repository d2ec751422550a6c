/** Task records, their lifecycle states and the errors the pool reports (pool/task.go, pool/errors.go).

    Identifiers, type names, batch ids and opaque payloads are natural numbers: only their equality
    matters. `NO_BATCH` and `EMPTY` stand for the empty string. Times are integers, and the zero
    value of `time.Time` is `None`. */
module Tasks {
  datatype Option<+T> = None | Some(value: T)

  datatype Error =
    | QueueFull
    | QueueClosed
    | TaskNotFound
    | TaskNotRunning
    | TaskNotStartable
    | TaskNotRemovable
    | NotTerminable(status: TaskStatus)
    | DuplicateKey

  datatype Result<+T> = Ok(value: T) | Err(error: Error)

  type TaskId = nat
  type Kind = nat
  type BatchId = nat
  type Blob = nat
  type Time = int

  const NO_BATCH: BatchId := 0
  const EMPTY: Blob := 0

  datatype TaskStatus = Pending | Delayed | Running | Completed | Failed | Cancelled | Retrying | Paused

  datatype Task = Task(
    id: TaskId,
    kind: Kind,
    data: Blob,
    status: TaskStatus,
    priority: int,
    batch: BatchId,
    maxRetries: int,
    retries: int,
    scheduledAt: Option<Time>,
    createdAt: Time,
    startedAt: Option<Time>,
    doneAt: Option<Time>,
    error: Blob,
    result: Blob,
    progress: (int, int),
    metadata: Blob)
  {
    /** Waiting in a queue: the states the memory backend hands out and removes from. */
    predicate Live() {
      status == Pending || status == Delayed
    }

    /** The schedule has passed; the source compares strictly (`ScheduledAt.Before(now)`). */
    predicate DueBefore(now: Time) {
      scheduledAt.None? || scheduledAt.value < now
    }
  }

  /** The states whose entry stamps `DoneAt` in every backend's UpdateStatus. */
  predicate StampsDone(status: TaskStatus) {
    status == Completed || status == Failed || status == Cancelled
  }

  /** The ids of a task table in one state. */
  ghost function InState(tasks: map<TaskId, Task>, status: TaskStatus): set<TaskId> {
    set id | id in tasks && tasks[id].status == status
  }
}
