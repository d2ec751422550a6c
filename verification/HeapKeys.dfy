/** The heap holds copies of priority and creation time: does it order by what is stored? (pool/memory_backend.go) */
module HeapKeys {
  import opened Tasks
  import opened Heaps
  import opened StoreSpec
  import opened MemoryQueue

  /** The item of every queued id has the stored priority and creation time. */
  ghost predicate Keyed(m: MemState) {
    forall x :: x in m.items && x.id in m.inQueue && x.id in m.tasks ==> x == ItemOf(m.tasks[x.id])
  }

  predicate SameKey(a: Task, b: Task) {
    a.priority == b.priority && a.createdAt == b.createdAt
  }

  /** A save or an accepted re-enqueue of a queued id, which leaves its item where it is, must not change its key. */
  predicate KeepsKey(m: MemState, op: Op) {
    match op
    case OpSave(t) => t.id in m.inQueue && t.id in m.tasks ==> SameKey(t, m.tasks[t.id])
    case OpEnqueue(t) => Accepts(m) && t.id in m.inQueue && t.id in m.tasks ==> SameKey(t, m.tasks[t.id])
    case _ => true
  }

  lemma SomeItem(m: MemState, id: TaskId) returns (x: MemItem)
    requires QueueInv(m) && id in m.inQueue
    ensures x in m.items && x.id == id
  {
    IdBagHas(m.items, id);
    var i :| 0 <= i < |m.items| && m.items[i].id == id;
    x := m.items[i];
  }

  lemma RewriteKeepsKeys(m: MemState, t: Task, tasks: map<TaskId, Task>)
    requires Indexed(m) && Keyed(m) && t.id in m.inQueue && tasks == m.tasks[t.id := t]
    ensures Keyed(m.(tasks := tasks)) <==> SameKey(t, m.tasks[t.id])
  {
    var x := SomeItem(m, t.id);
    assert x == ItemOf(m.tasks[t.id]);
  }

  lemma SaveKeepsKeysExactly(m: MemState, t: Task)
    requires Indexed(m) && Keyed(m) && FreshIds(m, OpSave(t))
    ensures Keyed(Save(m, t)) <==> KeepsKey(m, OpSave(t))
  {
    if t.id in m.inQueue { RewriteKeepsKeys(m, t, Save(m, t).tasks); }
  }

  lemma EnqueueKeepsKeysExactly(m: MemState, t: Task)
    requires Indexed(m) && Keyed(m) && FreshIds(m, OpEnqueue(t))
    ensures Keyed(Enqueue(m, t)) <==> KeepsKey(m, OpEnqueue(t))
  {
    var m' := Enqueue(m, t);
    if Accepts(m) && t.id in m.inQueue {
      RewriteKeepsKeys(m, t, m'.tasks);
    } else if Accepts(m) {
      PushContents(m.items, ItemOf(t));
      forall x | x in m'.items && x.id in m'.inQueue && x.id in m'.tasks ensures x == ItemOf(m'.tasks[x.id]) {
        assert x in multiset(m'.items);
        if x != ItemOf(t) {
          assert x in multiset(m.items);
          var i :| 0 <= i < |m.items| && m.items[i] == x;
          IdBagHas(m.items, x.id);
        }
      }
    }
  }

  /** Items that are still there, of ids that are still queued and whose key is as it was. */
  lemma FewerKeys(m: MemState, m': MemState)
    requires Keyed(m) && m'.inQueue <= m.inQueue && multiset(m'.items) <= multiset(m.items)
    requires forall id :: id in m'.tasks && id in m'.inQueue ==>
               id in m.tasks && SameKey(m.tasks[id], m'.tasks[id]) && m.tasks[id].id == m'.tasks[id].id
    ensures Keyed(m')
  {
    forall x | x in m'.items && x.id in m'.inQueue && x.id in m'.tasks ensures x == ItemOf(m'.tasks[x.id]) {
      assert x in multiset(m'.items) && x in multiset(m.items);
    }
  }

  lemma DequeueKeepsKeys(m: MemState, now: Time)
    requires Keyed(m)
    ensures Keyed(Dequeue(m, now))
  {
    var k := FirstReady(m, now, 0);
    if k < |m.items| {
      RemoveContents(m.items, k);
      FewerKeys(m, Dequeue(m, now));
    }
  }

  lemma RemoveKeepsKeys(m: MemState, id: TaskId)
    requires Keyed(m)
    ensures Keyed(Remove(m, id))
  {
    var k := FirstOf(m.items, id, 0);
    if k < |m.items| { RemoveContents(m.items, k); }
    FewerKeys(m, Remove(m, id));
  }

  lemma {:induction false} DormantIsSome(tasks: map<TaskId, Task>, items: seq<MemItem>)
    ensures multiset(Dormant(tasks, items)) <= multiset(items)
  {
    if items != [] {
      DormantIsSome(tasks, items[..|items| - 1]);
      assert items == items[..|items| - 1] + [items[|items| - 1]];
    }
  }

  lemma CancelBatchKeepsSome(m: MemState, b: BatchId)
    ensures multiset(CancelBatch(m, b).items) <= multiset(m.items)
  {
    var kept := Dormant(CancelBatch(m, b).tasks, m.items);
    DormantIsSome(CancelBatch(m, b).tasks, m.items);
    HeapifyShuffles(kept, |kept| / 2);
  }

  lemma CancelBatchQueuesNone(m: MemState, b: BatchId)
    requires Indexed(m)
    ensures CancelBatch(m, b).inQueue <= m.inQueue
  {
    forall id | id in CancelBatch(m, b).inQueue ensures id in m.inQueue {
      CancelBatchContents(m, b, id);
    }
  }

  lemma CancelBatchKeepsKeys(m: MemState, b: BatchId)
    requires Indexed(m) && Keyed(m)
    ensures Keyed(CancelBatch(m, b))
  {
    CancelBatchKeepsSome(m, b);
    CancelBatchQueuesNone(m, b);
    FewerKeys(m, CancelBatch(m, b));
  }

  lemma TableKeepsKeys(m: MemState, op: Op)
    requires Keyed(m) && TableOnly(op) && !op.OpSave?
    ensures Keyed(Apply(m, op))
  {
    TableOpsKeepHeap(m, op);
  }

  /** A call keeps the heap's keys equal to the stored ones exactly if it does not change the key of a queued id. */
  lemma StepKeepsKeysExactly(m: MemState, op: Op)
    requires Indexed(m) && Keyed(m) && FreshIds(m, op)
    ensures Keyed(Apply(m, op)) <==> KeepsKey(m, op)
  {
    if op.OpSave? { SaveKeepsKeysExactly(m, op.t); }
    else if TableOnly(op) { TableKeepsKeys(m, op); }
    else if op.OpEnqueue? { EnqueueKeepsKeysExactly(m, op.t); }
    else if op.OpDequeue? { DequeueKeepsKeys(m, op.now); }
    else if op.OpRemove? { RemoveKeepsKeys(m, op.id); }
    else { CancelBatchKeepsKeys(m, op.b); }
  }

  ghost predicate KeepsKeysThroughout(m: MemState, ops: seq<Op>)
    decreases |ops|
  {
    ops == [] || (FreshIds(m, ops[0]) && KeepsKey(m, ops[0]) && KeepsKeysThroughout(Apply(m, ops[0]), ops[1..]))
  }

  /** Over every run in which ids are not reused and no queued id changes its key, the heap orders the queued tasks by
      the priority and creation time that are stored. */
  lemma {:induction false} KeyedInRuns(m: MemState, ops: seq<Op>)
    requires Indexed(m) && Keyed(m) && KeepsKeysThroughout(m, ops)
    ensures Indexed(After(m, ops)) && Keyed(After(m, ops))
    decreases |ops|
  {
    if ops != [] {
      StepRefinesStore(m, ops[0]);
      StepKeepsKeysExactly(m, ops[0]);
      KeyedInRuns(Apply(m, ops[0]), ops[1..]);
    }
  }
}
