/** The memory backend's operations as functions on its whole state (pool/memory_backend.go).

    Each function is one locked region of the source. Class `MemoryBackend` implements them in place;
    here are the invariants they keep and the simple store they refine. */
module MemoryQueue {
  import opened Tasks
  import opened Heaps
  import opened StoreSpec

  /** `gen` numbers the current `wait` channel; closing the channel increments it. */
  datatype MemState = MemState(
    tasks: map<TaskId, Task>,
    items: seq<MemItem>,
    cap: nat,
    closed: bool,
    gen: nat,
    progress: map<TaskId, (int, int)>,
    inQueue: set<TaskId>)

  function ItemOf(t: Task): MemItem {
    MemItem(t.id, t.priority, t.createdAt)
  }

  function Save(m: MemState, t: Task): MemState {
    m.(tasks := m.tasks[t.id := t])
  }

  /** Delete clears the table and the index but leaves the heap item. */
  function Delete(m: MemState, id: TaskId): MemState {
    m.(tasks := m.tasks - {id}, progress := m.progress - {id}, inQueue := m.inQueue - {id})
  }

  predicate Accepts(m: MemState) {
    !m.closed && |m.items| < m.cap
  }

  function Enqueue(m: MemState, t: Task): MemState {
    if !Accepts(m) then m
    else if t.id in m.inQueue then m.(tasks := m.tasks[t.id := t], gen := m.gen + 1)
    else m.(tasks := m.tasks[t.id := t], items := Pushed(m.items, ItemOf(t)), gen := m.gen + 1,
            inQueue := m.inQueue + {t.id})
  }

  predicate Waiting(tasks: map<TaskId, Task>, item: MemItem) {
    item.id in tasks && tasks[item.id].Live()
  }

  predicate Ready(tasks: map<TaskId, Task>, item: MemItem, now: Time) {
    Waiting(tasks, item) && tasks[item.id].DueBefore(now)
  }

  /** The first ready index in array order at or after `i`; the length when there is none. */
  function FirstReady(m: MemState, now: Time, i: nat): (r: nat)
    requires i <= |m.items|
    ensures i <= r <= |m.items|
    ensures r < |m.items| ==> Ready(m.tasks, m.items[r], now)
    ensures forall j :: i <= j < r ==> !Ready(m.tasks, m.items[j], now)
    decreases |m.items| - i
  {
    if i == |m.items| || Ready(m.tasks, m.items[i], now) then i else FirstReady(m, now, i + 1)
  }

  function Claim(m: MemState, k: nat, now: Time): MemState
    requires k < |m.items| && m.items[k].id in m.tasks
  {
    var id := m.items[k].id;
    m.(tasks := m.tasks[id := m.tasks[id].(status := Running, startedAt := Some(now))],
       items := Removed(m.items, k), inQueue := m.inQueue - {id})
  }

  /** The locked part of one dequeue round: claim the first ready item, if any. */
  function Dequeue(m: MemState, now: Time): MemState {
    var k := FirstReady(m, now, 0);
    if k < |m.items| then Claim(m, k, now) else m
  }

  function FirstOf(items: seq<MemItem>, id: TaskId, i: nat): (r: nat)
    requires i <= |items|
    ensures i <= r <= |items|
    ensures r < |items| ==> items[r].id == id
    ensures forall j :: i <= j < r ==> items[j].id != id
    decreases |items| - i
  {
    if i == |items| || items[i].id == id then i else FirstOf(items, id, i + 1)
  }

  function Withdraw(items: seq<MemItem>, id: TaskId): seq<MemItem> {
    var k := FirstOf(items, id, 0);
    if k < |items| then Removed(items, k) else items
  }

  predicate CanRemove(m: MemState, id: TaskId) {
    id in m.tasks && m.tasks[id].Live()
  }

  function Remove(m: MemState, id: TaskId): MemState {
    if CanRemove(m, id) then
      m.(tasks := m.tasks[id := m.tasks[id].(status := Cancelled)], items := Withdraw(m.items, id),
         inQueue := m.inQueue - {id})
    else m
  }

  function UpdateStatus(m: MemState, id: TaskId, status: TaskStatus, error: Blob, now: Time): MemState {
    if id in m.tasks then m.(tasks := m.tasks[id := StatusSet(m.tasks[id], status, error, now)]) else m
  }

  function UpdateProgress(m: MemState, id: TaskId, p: (int, int)): MemState {
    m.(progress := m.progress[id := p],
       tasks := if id in m.tasks then m.tasks[id := m.tasks[id].(progress := p)] else m.tasks)
  }

  function UpdateResult(m: MemState, id: TaskId, r: Blob): MemState {
    if id in m.tasks then m.(tasks := m.tasks[id := m.tasks[id].(result := r)]) else m
  }

  function UpdateMetadata(m: MemState, id: TaskId, d: Blob): MemState {
    if id in m.tasks then m.(tasks := m.tasks[id := m.tasks[id].(metadata := d)]) else m
  }

  /** The items CancelBatch keeps: those whose task exists and is not waiting. */
  function Dormant(tasks: map<TaskId, Task>, items: seq<MemItem>): (r: seq<MemItem>)
    ensures |r| <= |items|
  {
    if items == [] then []
    else
      var rest := Dormant(tasks, items[..|items| - 1]);
      var x := items[|items| - 1];
      if x.id in tasks && !tasks[x.id].Live() then rest + [x] else rest
  }

  function CancelBatch(m: MemState, b: BatchId): MemState {
    var tasks := TasksCancelled(m.tasks, b);
    var kept := Dormant(tasks, m.items);
    var items := Heapified(kept, |kept| / 2);
    m.(tasks := tasks, items := items, inQueue := set i | 0 <= i < |items| :: items[i].id)
  }

  function Restarted(t: Task): Task {
    if t.status == Running || t.status == Retrying
    then t.(status := Pending, startedAt := None, error := EMPTY) else t
  }

  function Recover(m: MemState): MemState {
    m.(tasks := map id | id in m.tasks :: Restarted(m.tasks[id]))
  }

  function Close(m: MemState): MemState {
    m.(closed := true, gen := m.gen + 1)
  }

  // ---------- runs ----------

  datatype Op =
    | OpSave(t: Task)
    | OpDelete(id: TaskId)
    | OpEnqueue(t: Task)
    | OpDequeue(now: Time)
    | OpRemove(id: TaskId)
    | OpUpdateStatus(id: TaskId, status: TaskStatus, error: Blob, now: Time)
    | OpUpdateProgress(id: TaskId, p: (int, int))
    | OpUpdateResult(id: TaskId, r: Blob)
    | OpUpdateMetadata(id: TaskId, d: Blob)
    | OpCancelBatch(b: BatchId)
    | OpRecover
    | OpClose

  function Apply(m: MemState, op: Op): MemState {
    match op
    case OpSave(t) => Save(m, t)
    case OpDelete(id) => Delete(m, id)
    case OpEnqueue(t) => Enqueue(m, t)
    case OpDequeue(now) => Dequeue(m, now)
    case OpRemove(id) => Remove(m, id)
    case OpUpdateStatus(id, status, error, now) => UpdateStatus(m, id, status, error, now)
    case OpUpdateProgress(id, p) => UpdateProgress(m, id, p)
    case OpUpdateResult(id, r) => UpdateResult(m, id, r)
    case OpUpdateMetadata(id, d) => UpdateMetadata(m, id, d)
    case OpCancelBatch(b) => CancelBatch(m, b)
    case OpRecover => Recover(m)
    case OpClose => Close(m)
  }

  /** The ids whose last Enqueue was accepted. */
  function Accepted(m: MemState, acc: set<TaskId>, op: Op): set<TaskId> {
    match op
    case OpDelete(id) => acc - {id}
    case OpEnqueue(t) => if Accepts(m) then acc + {t.id} else acc - {t.id}
    case _ => acc
  }

  // ---------- the representation invariant, under every operation ----------

  ghost predicate QueueInv(m: MemState) {
    && HeapOrdered(m.items)
    && |m.items| <= m.cap
    && m.inQueue <= m.tasks.Keys
    && (forall id :: id in m.inQueue ==> id in IdBag(m.items))
  }

  /** Every accepted task that is still waiting has a heap item. */
  ghost predicate NoneLost(m: MemState, acc: set<TaskId>) {
    forall id :: id in acc && id in m.tasks && m.tasks[id].Live() ==> id in IdBag(m.items)
  }

  lemma DequeueKeepsQueueInv(m: MemState, now: Time)
    requires QueueInv(m)
    ensures QueueInv(Dequeue(m, now))
  {
    var k := FirstReady(m, now, 0);
    if k < |m.items| {
      RemoveKeepsOrder(m.items, k);
      RemoveContents(m.items, k);
    }
  }

  lemma WithdrawContents(items: seq<MemItem>, id: TaskId)
    requires HeapOrdered(items)
    ensures HeapOrdered(Withdraw(items, id)) && |Withdraw(items, id)| <= |items|
    ensures IdBag(Withdraw(items, id)) == IdBag(items) - multiset{id}
  {
    var k := FirstOf(items, id, 0);
    if k < |items| {
      RemoveKeepsOrder(items, k);
      RemoveContents(items, k);
    } else {
      IdBagHas(items, id);
    }
  }

  /** The kept items of CancelBatch, by id: all of a dormant task's items, none of the others. */
  lemma {:induction false} DormantContents(tasks: map<TaskId, Task>, items: seq<MemItem>, id: TaskId)
    ensures IdBag(Dormant(tasks, items))[id]
         == if id in tasks && !tasks[id].Live() then IdBag(items)[id] else 0
  {
    if items != [] {
      var rest := items[..|items| - 1];
      var x := items[|items| - 1];
      DormantContents(tasks, rest, id);
      SplitLast(items);
      assert Ids(Dormant(tasks, rest) + [x]) == Ids(Dormant(tasks, rest)) + [x.id];
    }
  }

  lemma CancelBatchContents(m: MemState, b: BatchId, id: TaskId)
    ensures var m' := CancelBatch(m, b);
            && HeapOrdered(m'.items) && |m'.items| <= |m.items|
            && (IdBag(m'.items)[id]
                == if id in m'.tasks && !m'.tasks[id].Live() then IdBag(m.items)[id] else 0)
            && (id in m'.inQueue <==> id in IdBag(m'.items))
  {
    var m' := CancelBatch(m, b);
    var kept := Dormant(m'.tasks, m.items);
    InitOrders(kept);
    HeapifyShuffles(kept, |kept| / 2);
    DormantContents(m'.tasks, m.items, id);
    IdBagHas(m'.items, id);
  }

  lemma CancelBatchKeepsQueueInv(m: MemState, b: BatchId)
    requires QueueInv(m)
    ensures QueueInv(CancelBatch(m, b))
  {
    CancelBatchContents(m, b, 0);
    forall id ensures id in CancelBatch(m, b).inQueue ==>
        id in IdBag(CancelBatch(m, b).items) && id in CancelBatch(m, b).tasks {
      CancelBatchContents(m, b, id);
    }
  }

  /** The operations that leave the heap, its capacity and, but for Delete, the index alone. */
  predicate TableOnly(op: Op) {
    || op.OpSave? || op.OpDelete? || op.OpUpdateStatus? || op.OpUpdateProgress? || op.OpUpdateResult?
    || op.OpUpdateMetadata? || op.OpRecover? || op.OpClose?
  }

  lemma TableOpsKeepHeap(m: MemState, op: Op)
    requires TableOnly(op)
    ensures var m' := Apply(m, op);
            && m'.items == m.items && m'.cap == m.cap
            && m'.inQueue == (if op.OpDelete? then m.inQueue - {op.id} else m.inQueue)
            && (if op.OpDelete? then m'.tasks.Keys == m.tasks.Keys - {op.id} else m.tasks.Keys <= m'.tasks.Keys)
  {
  }

  lemma EnqueueKeepsQueueInv(m: MemState, t: Task)
    requires QueueInv(m)
    ensures QueueInv(Enqueue(m, t))
  {
    PushKeepsOrder(m.items, ItemOf(t));
    PushContents(m.items, ItemOf(t));
  }

  lemma RemoveKeepsQueueInv(m: MemState, id: TaskId)
    requires QueueInv(m)
    ensures QueueInv(Remove(m, id))
  {
    WithdrawContents(m.items, id);
  }

  /** Whatever the arguments, no operation breaks the heap, the capacity or the index. */
  lemma StepKeepsQueueInv(m: MemState, op: Op)
    requires QueueInv(m)
    ensures QueueInv(Apply(m, op))
  {
    if TableOnly(op) { TableOpsKeepHeap(m, op); }
    else if op.OpEnqueue? { EnqueueKeepsQueueInv(m, op.t); }
    else if op.OpDequeue? { DequeueKeepsQueueInv(m, op.now); }
    else if op.OpRemove? { RemoveKeepsQueueInv(m, op.id); }
    else { CancelBatchKeepsQueueInv(m, op.b); }
  }

  // ---------- no accepted task is lost, and exactly when one is ----------

  /** The literal CancelBatch keeps every waiting task queued exactly when no accepted task outside
      the batch is waiting: its filter drops the live items and keeps the dead ones. */
  lemma CancelBatchLosesExactly(m: MemState, acc: set<TaskId>, b: BatchId)
    requires QueueInv(m) && NoneLost(m, acc)
    ensures NoneLost(CancelBatch(m, b), acc)
       <==> (forall id :: id in acc && id in m.tasks && m.tasks[id].Live() ==> m.tasks[id].batch == b)
  {
    var m' := CancelBatch(m, b);
    forall id | id in acc && id in m.tasks && m.tasks[id].Live() && m.tasks[id].batch != b
      ensures id in m'.tasks && m'.tasks[id].Live() && id !in IdBag(m'.items)
    {
      CancelBatchContents(m, b, id);
    }
  }

  /** Recover re-opens running tasks without queueing them. */
  lemma RecoverLosesExactly(m: MemState, acc: set<TaskId>)
    requires QueueInv(m) && NoneLost(m, acc)
    ensures NoneLost(Recover(m), acc)
       <==> (forall id :: id in acc && id in m.tasks && m.tasks[id].status in {Running, Retrying}
                          ==> id in IdBag(m.items))
  {
    var m' := Recover(m);
    forall id | id in acc && id in m.tasks && m.tasks[id].status in {Running, Retrying}
      ensures id in m'.tasks && m'.tasks[id].Live()
    {
    }
  }

  /** The calls after which an accepted waiting task may have no heap item. */
  ghost predicate Keeps(m: MemState, acc: set<TaskId>, op: Op) {
    match op
    case OpSave(t) => t.id in acc && t.Live() ==> t.id in IdBag(m.items)
    case OpUpdateStatus(id, status, _, _) =>
      id in acc && id in m.tasks && (status == Pending || status == Delayed) ==> id in IdBag(m.items)
    case OpCancelBatch(b) =>
      forall id :: id in acc && id in m.tasks && m.tasks[id].Live() ==> m.tasks[id].batch == b
    case OpRecover =>
      forall id :: id in acc && id in m.tasks && m.tasks[id].status in {Running, Retrying} ==> id in IdBag(m.items)
    case _ => true
  }

  lemma DequeueKeepsAccepted(m: MemState, acc: set<TaskId>, now: Time)
    requires QueueInv(m) && NoneLost(m, acc)
    ensures NoneLost(Dequeue(m, now), acc)
  {
    var k := FirstReady(m, now, 0);
    if k < |m.items| {
      RemoveContents(m.items, k);
    }
  }

  lemma EnqueueKeepsAccepted(m: MemState, acc: set<TaskId>, t: Task)
    requires QueueInv(m) && NoneLost(m, acc)
    ensures NoneLost(Enqueue(m, t), Accepted(m, acc, OpEnqueue(t)))
  {
    PushContents(m.items, ItemOf(t));
  }

  lemma StatusWriteLosesExactly(m: MemState, acc: set<TaskId>, op: Op)
    requires NoneLost(m, acc) && op.OpUpdateStatus?
    ensures NoneLost(Apply(m, op), acc) <==> Keeps(m, acc, op)
  {
    if op.id in m.tasks { assert Apply(m, op).tasks[op.id].status == op.status; }
  }

  lemma RemoveKeepsAccepted(m: MemState, acc: set<TaskId>, id: TaskId)
    requires QueueInv(m) && NoneLost(m, acc)
    ensures NoneLost(Remove(m, id), acc)
  {
    WithdrawContents(m.items, id);
  }

  lemma FieldWritesLoseExactly(m: MemState, acc: set<TaskId>, op: Op)
    requires NoneLost(m, acc) && TableOnly(op) && !op.OpUpdateStatus? && !op.OpRecover?
    ensures NoneLost(Apply(m, op), Accepted(m, acc, op)) <==> Keeps(m, acc, op)
  {
    if op.OpSave? { assert Apply(m, op).tasks[op.t.id] == op.t; }
  }

  /** One step keeps every accepted waiting task in the heap exactly under `Keeps`. */
  lemma StepLosesExactly(m: MemState, acc: set<TaskId>, op: Op)
    requires QueueInv(m) && NoneLost(m, acc)
    ensures NoneLost(Apply(m, op), Accepted(m, acc, op)) <==> Keeps(m, acc, op)
  {
    if op.OpUpdateStatus? { StatusWriteLosesExactly(m, acc, op); }
    else if op.OpRecover? { RecoverLosesExactly(m, acc); }
    else if op.OpCancelBatch? { CancelBatchLosesExactly(m, acc, op.b); }
    else if op.OpEnqueue? { EnqueueKeepsAccepted(m, acc, op.t); }
    else if op.OpDequeue? { DequeueKeepsAccepted(m, acc, op.now); }
    else if op.OpRemove? { RemoveKeepsAccepted(m, acc, op.id); }
    else { FieldWritesLoseExactly(m, acc, op); }
  }

  function After(m: MemState, ops: seq<Op>): MemState
    decreases |ops|
  {
    if ops == [] then m else After(Apply(m, ops[0]), ops[1..])
  }

  lemma {:induction false} AfterLast(m: MemState, ops: seq<Op>, op: Op)
    ensures After(m, ops + [op]) == Apply(After(m, ops), op)
    decreases |ops|
  {
    if ops == [] {
      assert [op][1..] == [];
    } else {
      assert (ops + [op])[1..] == ops[1..] + [op];
      AfterLast(Apply(m, ops[0]), ops[1..], op);
    }
  }

  lemma StepStaysClosed(m: MemState, op: Op)
    requires m.closed
    ensures Apply(m, op).closed && !Accepts(m) && (op.OpEnqueue? ==> Apply(m, op) == m)
    ensures |Apply(m, op).items| <= |m.items|
  {
    if op.OpCancelBatch? { CancelBatchContents(m, op.b, 0); }
  }

  /** A closed queue stays closed: in no run is an Enqueue accepted again, and the heap never grows. */
  lemma {:induction false} ClosedForGood(m: MemState, ops: seq<Op>)
    requires m.closed
    ensures var e := After(m, ops); e.closed && |e.items| <= |m.items| && forall t :: Enqueue(e, t) == e
    decreases |ops|
  {
    if ops != [] {
      StepStaysClosed(m, ops[0]);
      ClosedForGood(Apply(m, ops[0]), ops[1..]);
    }
  }

  function AcceptedAfter(m: MemState, acc: set<TaskId>, ops: seq<Op>): set<TaskId>
    decreases |ops|
  {
    if ops == [] then acc else AcceptedAfter(Apply(m, ops[0]), Accepted(m, acc, ops[0]), ops[1..])
  }

  ghost predicate KeepsAll(m: MemState, acc: set<TaskId>, ops: seq<Op>)
    decreases |ops|
  {
    ops == [] || (Keeps(m, acc, ops[0]) && KeepsAll(Apply(m, ops[0]), Accepted(m, acc, ops[0]), ops[1..]))
  }

  /** Over every run: heap order, capacity and index always; no accepted waiting task without a heap
      item while the four exceptional calls respect their condition. */
  lemma {:induction false} RunsLoseNothing(m: MemState, acc: set<TaskId>, ops: seq<Op>)
    requires QueueInv(m) && NoneLost(m, acc)
    ensures QueueInv(After(m, ops))
    ensures KeepsAll(m, acc, ops) ==> NoneLost(After(m, ops), AcceptedAfter(m, acc, ops))
    decreases |ops|
  {
    if ops != [] {
      StepKeepsQueueInv(m, ops[0]);
      if KeepsAll(m, acc, ops) {
        StepLosesExactly(m, acc, ops[0]);
        RunsLoseNothing(Apply(m, ops[0]), Accepted(m, acc, ops[0]), ops[1..]);
      } else {
        RunsLoseNothing(Apply(m, ops[0]), {}, ops[1..]);
      }
    }
  }

  // ---------- the index mirrors the heap ----------

  /** `inQueue` is the set of heap ids and no id has two items. */
  ghost predicate Mirrors(m: MemState) {
    IdBag(m.items) == multiset(m.inQueue)
  }

  lemma EnqueueMirrors(m: MemState, t: Task)
    requires QueueInv(m) && Mirrors(m)
    ensures Mirrors(Enqueue(m, t))
  {
    PushContents(m.items, ItemOf(t));
  }

  lemma DequeueMirrors(m: MemState, now: Time)
    requires QueueInv(m) && Mirrors(m)
    ensures Mirrors(Dequeue(m, now))
  {
    var k := FirstReady(m, now, 0);
    if k < |m.items| {
      RemoveContents(m.items, k);
      IdBagHas(m.items, m.items[k].id);
    }
  }

  lemma RemoveMirrors(m: MemState, id: TaskId)
    requires QueueInv(m) && Mirrors(m)
    ensures Mirrors(Remove(m, id))
  {
    WithdrawContents(m.items, id);
  }

  lemma CancelBatchMirrors(m: MemState, b: BatchId)
    requires QueueInv(m) && Mirrors(m)
    ensures Mirrors(CancelBatch(m, b))
  {
    var m' := CancelBatch(m, b);
    forall id ensures IdBag(m'.items)[id] == multiset(m'.inQueue)[id] {
      CancelBatchContents(m, b, id);
    }
  }

  /** The index stays an exact mirror under every call but a Delete of a queued id. */
  lemma MirrorBreaksExactly(m: MemState, op: Op)
    requires QueueInv(m) && Mirrors(m)
    ensures Mirrors(Apply(m, op)) <==> (op.OpDelete? ==> op.id !in m.inQueue)
  {
    match op
    case OpEnqueue(t) => EnqueueMirrors(m, t);
    case OpDequeue(now) => DequeueMirrors(m, now);
    case OpRemove(id) => RemoveMirrors(m, id);
    case OpCancelBatch(b) => CancelBatchMirrors(m, b);
    case OpDelete(id) =>
      assert multiset(m.inQueue)[id] == if id in m.inQueue then 1 else 0;
      assert multiset(m.inQueue - {id})[id] == 0;
    case _ =>
  }

  /** No call of the run deletes an id while it is queued. */
  ghost predicate DeletesUnqueued(m: MemState, ops: seq<Op>)
    decreases |ops|
  {
    ops == [] || ((ops[0].OpDelete? ==> ops[0].id !in m.inQueue) && DeletesUnqueued(Apply(m, ops[0]), ops[1..]))
  }

  lemma {:induction false} MirrorsInRuns(m: MemState, ops: seq<Op>)
    requires QueueInv(m) && Mirrors(m) && DeletesUnqueued(m, ops)
    ensures Mirrors(After(m, ops))
    decreases |ops|
  {
    if ops != [] {
      StepKeepsQueueInv(m, ops[0]);
      MirrorBreaksExactly(m, ops[0]);
      MirrorsInRuns(Apply(m, ops[0]), ops[1..]);
    }
  }

  function Empty(cap: nat): MemState {
    MemState(map[], [], cap, false, 0, map[], {})
  }

  /** Every run from the empty queue keeps heap order, capacity and index; it loses no accepted task while the
      exceptional calls respect their conditions; and its index mirrors the heap, each queued id having exactly one
      item, while no queued id is deleted. */
  lemma RunsFromEmpty(cap: nat, ops: seq<Op>)
    ensures QueueInv(After(Empty(cap), ops))
    ensures KeepsAll(Empty(cap), {}, ops) ==> NoneLost(After(Empty(cap), ops), AcceptedAfter(Empty(cap), {}, ops))
    ensures DeletesUnqueued(Empty(cap), ops) ==> Mirrors(After(Empty(cap), ops))
  {
    RunsLoseNothing(Empty(cap), {}, ops);
    if DeletesUnqueued(Empty(cap), ops) { MirrorsInRuns(Empty(cap), ops); }
  }

  // ---------- refinement of the simple store ----------

  function Abs(m: MemState): Store {
    Store(m.tasks, m.inQueue)
  }

  /** Each indexed id has one heap item, and any other heap item is left over from a deleted task. */
  ghost predicate Indexed(m: MemState) {
    && QueueInv(m)
    && (forall id :: id in m.inQueue ==> IdBag(m.items)[id] == 1)
    && (forall id :: id in IdBag(m.items) && id !in m.inQueue ==> id !in m.tasks)
  }

  /** Ids are not reused: a task is saved under an id with no left-over item, and enqueued once saved. */
  ghost predicate FreshIds(m: MemState, op: Op) {
    match op
    case OpSave(t) => t.id in m.tasks || t.id !in IdBag(m.items)
    case OpEnqueue(t) => t.id in m.tasks
    case _ => true
  }

  lemma EnqueueRefines(m: MemState, t: Task)
    requires Indexed(m) && t.id in m.tasks
    ensures Indexed(Enqueue(m, t))
    ensures Abs(Enqueue(m, t)) == if Accepts(m) then Enqueued(Abs(m), t) else Abs(m)
  {
    var m' := Enqueue(m, t);
    EnqueueKeepsQueueInv(m, t);
    if Accepts(m) && t.id !in m.inQueue {
      PushContents(m.items, ItemOf(t));
      assert IdBag(m'.items) == IdBag(m.items) + multiset{t.id};
      assert IdBag(m.items)[t.id] == 0;
    }
  }

  lemma ClaimRefines(m: MemState, k: nat, now: Time)
    requires Indexed(m) && k < |m.items| && Ready(m.tasks, m.items[k], now)
    ensures Indexed(Claim(m, k, now))
    ensures Claimable(Abs(m), m.items[k].id, now)
    ensures Abs(Claim(m, k, now)) == Claimed(Abs(m), m.items[k].id, now)
  {
    var id := m.items[k].id;
    var m' := Claim(m, k, now);
    RemoveKeepsOrder(m.items, k);
    RemoveContents(m.items, k);
    assert id in IdBag(m.items) by { IdBagHas(m.items, id); }
    assert IdBag(m'.items)[id] == 0;
    forall x | x in m'.inQueue ensures IdBag(m'.items)[x] == 1 {
      assert x in m.inQueue;
    }
  }

  lemma NothingClaimable(m: MemState, now: Time)
    requires Indexed(m) && FirstReady(m, now, 0) == |m.items|
    ensures forall id :: !Claimable(Abs(m), id, now)
  {
    forall id | id in m.inQueue ensures !Claimable(Abs(m), id, now) {
      IdBagHas(m.items, id);
    }
  }

  /** The heap scan claims a claimable id, or there is none. */
  lemma DequeueRefines(m: MemState, now: Time)
    requires Indexed(m)
    ensures Indexed(Dequeue(m, now))
    ensures var k := FirstReady(m, now, 0);
            if k < |m.items|
            then Claimable(Abs(m), m.items[k].id, now)
                 && Abs(Dequeue(m, now)) == Claimed(Abs(m), m.items[k].id, now)
            else Abs(Dequeue(m, now)) == Abs(m) && forall id :: !Claimable(Abs(m), id, now)
  {
    var k := FirstReady(m, now, 0);
    if k < |m.items| { ClaimRefines(m, k, now); } else { NothingClaimable(m, now); }
  }

  lemma RemoveRefines(m: MemState, id: TaskId)
    requires Indexed(m)
    ensures Indexed(Remove(m, id))
    ensures Abs(Remove(m, id)) == if Removable(Abs(m), id) then Withdrawn(Abs(m), id) else Abs(m)
  {
    WithdrawContents(m.items, id);
  }

  lemma CancelBatchKeepsIndexed(m: MemState, b: BatchId, id: TaskId)
    requires Indexed(m)
    ensures var m' := CancelBatch(m, b);
            && (id in m'.inQueue <==> id in BatchCancelled(Abs(m), b).queue)
            && (id in m'.inQueue ==> IdBag(m'.items)[id] == 1)
            && (id in IdBag(m'.items) ==> id in m'.inQueue)
  {
    CancelBatchContents(m, b, id);
  }

  lemma CancelBatchRefines(m: MemState, b: BatchId)
    requires Indexed(m)
    ensures Indexed(CancelBatch(m, b))
    ensures Abs(CancelBatch(m, b)) == BatchCancelled(Abs(m), b)
  {
    CancelBatchKeepsQueueInv(m, b);
    forall id { CancelBatchKeepsIndexed(m, b, id); }
  }

  lemma TableOpsKeepIndexed(m: MemState, op: Op)
    requires Indexed(m) && FreshIds(m, op) && TableOnly(op)
    ensures Indexed(Apply(m, op))
  {
    TableOpsKeepHeap(m, op);
    TableKeys(m, op);
  }

  lemma TableKeys(m: MemState, op: Op)
    requires TableOnly(op)
    ensures Apply(m, op).tasks.Keys == if op.OpSave? then m.tasks.Keys + {op.t.id}
                                       else if op.OpDelete? then m.tasks.Keys - {op.id} else m.tasks.Keys
  {
  }

  /** What an operation does to the simple store. */
  ghost predicate ActsOn(m: MemState, op: Op, s: Store, s': Store) {
    match op
    case OpSave(t) => s' == Saved(s, t)
    case OpDelete(id) => s' == Deleted(s, id)
    case OpEnqueue(t) => s' == if Accepts(m) then Enqueued(s, t) else s
    case OpDequeue(now) =>
      || (exists id :: Claimable(s, id, now) && s' == Claimed(s, id, now))
      || (s' == s && forall id :: !Claimable(s, id, now))
    case OpRemove(id) => s' == if Removable(s, id) then Withdrawn(s, id) else s
    case OpUpdateStatus(id, status, error, now) => s' == WithStatus(s, id, status, error, now)
    case OpUpdateProgress(id, p) => s' == WithProgress(s, id, p)
    case OpUpdateResult(id, r) => s' == WithResult(s, id, r)
    case OpUpdateMetadata(id, d) => s' == WithMetadata(s, id, d)
    case OpCancelBatch(b) => s' == BatchCancelled(s, b)
    case OpRecover => s' == s.(tasks := map id | id in s.tasks :: Restarted(s.tasks[id]))
    case OpClose => s' == s
  }

  lemma TableOpsAct(m: MemState, op: Op)
    requires TableOnly(op)
    ensures ActsOn(m, op, Abs(m), Abs(Apply(m, op)))
  {
  }

  /** With ids never reused, every operation acts on the task table and the set of queued ids as the
      simple store says, whatever the heap looks like. */
  lemma StepRefinesStore(m: MemState, op: Op)
    requires Indexed(m) && FreshIds(m, op)
    ensures Indexed(Apply(m, op))
    ensures ActsOn(m, op, Abs(m), Abs(Apply(m, op)))
  {
    match op
    case OpEnqueue(t) => EnqueueRefines(m, t);
    case OpDequeue(now) => DequeueRefines(m, now);
    case OpRemove(id) => RemoveRefines(m, id);
    case OpCancelBatch(b) => CancelBatchRefines(m, b);
    case _ =>
      TableOpsKeepIndexed(m, op);
      TableOpsAct(m, op);
  }

  // ---------- what deleted tasks leave behind ----------

  /** The items of deleted tasks. */
  ghost function Leftover(m: MemState): multiset<TaskId> {
    IdBag(m.items) - multiset(m.inQueue)
  }

  /** Every item is that of a queued id, one each, or left over. */
  lemma ItemsSplit(m: MemState)
    requires Indexed(m)
    ensures |m.items| == |m.inQueue| + |Leftover(m)|
  {
    assert IdBag(m.items) == multiset(m.inQueue) + Leftover(m) by {
      forall id ensures IdBag(m.items)[id] == (multiset(m.inQueue) + Leftover(m))[id] {
        assert id in m.inQueue ==> IdBag(m.items)[id] == 1;
      }
    }
    assert |IdBag(m.items)| == |Ids(m.items)|;
  }

  /** An open queue refuses with fewer than `cap` ids queued exactly when left-over items fill it up. */
  lemma RefusesShortExactly(m: MemState)
    requires Indexed(m) && !m.closed
    ensures !Accepts(m) && |m.inQueue| < m.cap <==> |m.items| == m.cap && |Leftover(m)| > 0
  {
    ItemsSplit(m);
  }

  /** Nothing but CancelBatch takes a left-over item away: dequeue passes it over, and Remove finds no task. */
  lemma LeftoversStay(m: MemState, op: Op)
    requires Indexed(m) && FreshIds(m, op) && !op.OpCancelBatch?
    ensures Leftover(m) <= Leftover(Apply(m, op))
  {
    forall id ensures Leftover(m)[id] <= Leftover(Apply(m, op))[id] { LeftoverStays(m, op, id); }
  }

  lemma DequeuePassesOver(m: MemState, now: Time, id: TaskId)
    requires id !in m.tasks
    ensures IdBag(m.items)[id] == IdBag(Dequeue(m, now).items)[id]
  {
    var k := FirstReady(m, now, 0);
    if k < |m.items| { RemoveContents(m.items, k); }
  }

  lemma RemovePassesOver(m: MemState, x: TaskId, id: TaskId)
    requires QueueInv(m) && id !in m.tasks
    ensures IdBag(m.items)[id] == IdBag(Remove(m, x).items)[id]
  {
    WithdrawContents(m.items, x);
  }

  lemma ItemStays(m: MemState, op: Op, id: TaskId)
    requires QueueInv(m) && id !in m.tasks && !op.OpCancelBatch?
    ensures IdBag(m.items)[id] <= IdBag(Apply(m, op).items)[id]
  {
    if TableOnly(op) { TableOpsKeepHeap(m, op); }
    else if op.OpEnqueue? { PushContents(m.items, ItemOf(op.t)); }
    else if op.OpDequeue? { DequeuePassesOver(m, op.now, id); }
    else { RemovePassesOver(m, op.id, id); }
  }

  lemma StaysUnindexed(m: MemState, op: Op, id: TaskId)
    requires FreshIds(m, op) && !op.OpCancelBatch? && id !in m.tasks && id !in m.inQueue
    ensures id !in Apply(m, op).inQueue
  {
  }

  lemma LeftoverStays(m: MemState, op: Op, id: TaskId)
    requires Indexed(m) && FreshIds(m, op) && !op.OpCancelBatch?
    ensures Leftover(m)[id] <= Leftover(Apply(m, op))[id]
  {
    if id in m.inQueue {
      assert IdBag(m.items)[id] == 1;
    } else if id in IdBag(m.items) {
      ItemStays(m, op, id);
      StaysUnindexed(m, op, id);
    }
  }

  /** CancelBatch clears them all. */
  lemma CancelBatchClearsLeftovers(m: MemState, b: BatchId)
    requires Indexed(m)
    ensures Leftover(CancelBatch(m, b)) == multiset{}
  {
    var m' := CancelBatch(m, b);
    forall id ensures Leftover(m')[id] == 0 { CancelBatchKeepsIndexed(m, b, id); }
  }
}
