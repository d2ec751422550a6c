/** In which order the memory backend hands out tasks (pool/memory_backend.go), measured against the
    ORDER BY of the database backends. */
module Dispatch {
  import opened Tasks
  import opened Heaps
  import opened MemoryQueue
  import Rows

  // ---------- the first ready item in array order ----------

  /** What the scan guarantees in general: no ready item sits above the claimed one in the tree, and none
      below it comes before it. */
  lemma ClaimBeatsItsBranch(m: MemState, now: Time, j: nat)
    requires HeapOrdered(m.items) && j < |m.items| && Ready(m.tasks, m.items[j], now)
    ensures var k := FirstReady(m, now, 0);
            k <= j && (Ancestor(j, k) ==> j == k) && (Ancestor(k, j) ==> Le(m.items[k], m.items[j]))
  {
    var k := FirstReady(m, now, 0);
    if Ancestor(j, k) { AncestorPrecedes(m.items, j, k); }
    if Ancestor(k, j) { AncestorPrecedes(m.items, k, j); }
  }

  /** A heap in which only the path from `j` to the root has the better priority. */
  function PathHeap(n: nat, j: nat): (r: seq<MemItem>)
    ensures |r| == n
  {
    seq(n, i requires 0 <= i < n => MemItem(i, if Ancestor(i, j) then 0 else 1, 0))
  }

  lemma {:induction false} AncestorStep(a: nat, b: nat)
    requires a > 0 && Ancestor(a, b)
    ensures Ancestor(Parent(a), b)
    decreases b
  {
    if a == b {
      assert Ancestor(Parent(a), Parent(b));
    } else {
      AncestorStep(a, Parent(b));
    }
  }

  lemma PathHeapIsOrdered(n: nat, j: nat)
    ensures HeapOrdered(PathHeap(n, j))
  {
    var s := PathHeap(n, j);
    forall i | 1 <= i < n && Ancestor(i, j) ensures Ancestor(Parent(i), j) {
      AncestorStep(i, j);
    }
  }

  ghost predicate AlwaysBest(ready: seq<bool>, k: nat)
    requires k < |ready|
  {
    forall items: seq<MemItem> :: |items| == |ready| && HeapOrdered(items)
      ==> forall j :: 0 <= j < |ready| && ready[j] ==> Le(items[k], items[j])
  }

  /** For a given pattern of ready positions, the first ready position holds a best ready item in every
      heap exactly when it is a tree ancestor of all ready positions. */
  lemma FirstReadyIsBestExactly(ready: seq<bool>, k: nat)
    requires k < |ready|
    ensures AlwaysBest(ready, k) <==> (forall j :: 0 <= j < |ready| && ready[j] ==> Ancestor(k, j))
  {
    if forall j :: 0 <= j < |ready| && ready[j] ==> Ancestor(k, j) {
      forall items: seq<MemItem>, j | |items| == |ready| && HeapOrdered(items) && 0 <= j < |ready| && ready[j]
        ensures Le(items[k], items[j])
      {
        AncestorPrecedes(items, k, j);
      }
    }
    forall j | 0 <= j < |ready| && ready[j] && !Ancestor(k, j) ensures !AlwaysBest(ready, k) {
      var s := PathHeap(|ready|, j);
      PathHeapIsOrdered(|ready|, j);
      assert Less(s[j], s[k]);
    }
  }

  /** A queue state with these items under the ids 0, 1, ..., in which exactly the marked positions are ready at
      time 0. */
  function PatternQueue(items: seq<MemItem>, ready: seq<bool>): MemState
    requires |items| == |ready|
  {
    MemState(map i | 0 <= i < |items| :: PLAIN.(id := i, priority := items[i].priority, createdAt := items[i].created,
                                                scheduledAt := if ready[i] then None else Some(1)),
             items, |items|, false, 0, map[], IdSet(items))
  }

  ghost predicate Numbered(items: seq<MemItem>) {
    forall i :: 0 <= i < |items| ==> items[i].id == i
  }

  function IdSet(items: seq<MemItem>): set<TaskId> {
    set i | 0 <= i < |items| :: items[i].id
  }

  lemma {:induction false} NumberedBag(items: seq<MemItem>)
    requires Numbered(items)
    ensures IdBag(items) == multiset(IdSet(items))
  {
    var n := |items|;
    if n > 0 {
      var rest := items[..n - 1];
      NumberedBag(rest);
      SplitLast(items);
      assert n - 1 !in IdSet(rest);
      assert IdSet(items) == IdSet(rest) + {n - 1};
    }
  }

  /** It is a valid queue whose items carry their tasks' keys, with the given pattern. */
  lemma PatternQueueIsValid(items: seq<MemItem>, ready: seq<bool>)
    requires |items| == |ready| && HeapOrdered(items) && Numbered(items)
    ensures var m := PatternQueue(items, ready);
            && QueueInv(m) && Mirrors(m) && ReadyAt(m, 0) == ready
            && forall i :: 0 <= i < |items| ==> items[i] == ItemOf(m.tasks[i])
  {
    NumberedBag(items);
  }

  /** Which positions are ready. */
  function ReadyAt(m: MemState, now: Time): (r: seq<bool>)
    ensures |r| == |m.items|
  {
    seq(|m.items|, i requires 0 <= i < |m.items| => Ready(m.tasks, m.items[i], now))
  }

  lemma FirstReadyOf(m: MemState, now: Time, k: nat)
    requires k < |m.items| && ReadyAt(m, now)[k] && forall j :: 0 <= j < k ==> !ReadyAt(m, now)[j]
    ensures FirstReady(m, now, 0) == k
  {
    assert Ready(m.tasks, m.items[k], now);
    forall j | 0 <= j < k ensures !Ready(m.tasks, m.items[j], now) {
      assert !ReadyAt(m, now)[j];
    }
  }

  /** The dequeue of this state claims a best ready item. */
  ghost predicate ClaimsBest(m: MemState, now: Time) {
    var k := FirstReady(m, now, 0);
    k < |m.items| ==> forall j :: 0 <= j < |m.items| && Ready(m.tasks, m.items[j], now) ==> Le(m.items[k], m.items[j])
  }

  ghost predicate AllClaimBest(ready: seq<bool>) {
    forall m: MemState, now: Time :: QueueInv(m) && Mirrors(m) && ReadyAt(m, now) == ready ==> ClaimsBest(m, now)
  }

  /** Dequeue claims a best ready item in every valid queue state with a given pattern of ready positions exactly when
      the first ready position is a tree ancestor of all ready positions. */
  lemma DequeueClaimsBestExactly(ready: seq<bool>, k: nat)
    requires k < |ready| && ready[k] && forall j :: 0 <= j < k ==> !ready[j]
    ensures AllClaimBest(ready) <==> (forall j :: 0 <= j < |ready| && ready[j] ==> Ancestor(k, j))
  {
    if forall j :: 0 <= j < |ready| && ready[j] ==> Ancestor(k, j) {
      forall m: MemState, now: Time | QueueInv(m) && Mirrors(m) && ReadyAt(m, now) == ready ensures ClaimsBest(m, now) {
        FirstReadyOf(m, now, k);
        forall j | 0 <= j < |ready| && Ready(m.tasks, m.items[j], now) ensures Le(m.items[k], m.items[j]) {
          assert ready[j];
          AncestorPrecedes(m.items, k, j);
        }
      }
    }
    forall j | 0 <= j < |ready| && ready[j] && !Ancestor(k, j) ensures !AllClaimBest(ready) {
      PathQueueClaimsTheWorse(ready, k, j);
    }
  }

  lemma PathQueueClaimsTheWorse(ready: seq<bool>, k: nat, j: nat)
    requires k < |ready| && ready[k] && (forall i :: 0 <= i < k ==> !ready[i])
    requires j < |ready| && ready[j] && !Ancestor(k, j)
    ensures !AllClaimBest(ready)
  {
    var items := PathHeap(|ready|, j);
    var m := PatternQueue(items, ready);
    PathHeapIsOrdered(|ready|, j);
    PatternQueueIsValid(items, ready);
    FirstReadyOf(m, 0, k);
    assert Less(items[j], items[k]);
    assert ReadyAt(m, 0)[j];
    assert Ready(m.tasks, m.items[j], 0);
    assert !ClaimsBest(m, 0);
  }

  const PLAIN := Task(0, 0, 0, Pending, 0, NO_BATCH, 0, 0, None, 0, None, None, EMPTY, EMPTY, (0, 0), EMPTY)
  const ROOT := PLAIN.(id := 1, status := Delayed, scheduledAt := Some(100))
  const WORSE := PLAIN.(id := 2, priority := 5)
  const BETTER := PLAIN.(id := 3, priority := 1)

  /** A three-item heap whose root is delayed until time 100. */
  function DelayedRoot(): MemState {
    MemState(map[1 := ROOT, 2 := WORSE, 3 := BETTER], [ItemOf(ROOT), ItemOf(WORSE), ItemOf(BETTER)],
             10, false, 3, map[], {1, 2, 3})
  }

  lemma AppendingEnqueue(m: MemState, t: Task)
    requires Accepts(m) && t.id !in m.inQueue
    requires m.items != [] ==> !Less(ItemOf(t), m.items[Parent(|m.items|)])
    ensures Enqueue(m, t) == m.(tasks := m.tasks[t.id := t], items := m.items + [ItemOf(t)], gen := m.gen + 1,
                                inQueue := m.inQueue + {t.id})
  {
  }

  /** Three submissions reach it. */
  lemma DelayedRootIsReached()
    ensures After(Empty(10), [OpEnqueue(ROOT), OpEnqueue(WORSE), OpEnqueue(BETTER)]) == DelayedRoot()
  {
    var one := Enqueue(Empty(10), ROOT);
    var two := Enqueue(one, WORSE);
    AppendingEnqueue(Empty(10), ROOT);
    AppendingEnqueue(one, WORSE);
    AppendingEnqueue(two, BETTER);
    assert two.items == [ItemOf(ROOT), ItemOf(WORSE)];
    assert Enqueue(two, BETTER) == DelayedRoot();
    AfterLast(Empty(10), [], OpEnqueue(ROOT));
    AfterLast(Empty(10), [OpEnqueue(ROOT)], OpEnqueue(WORSE));
    AfterLast(Empty(10), [OpEnqueue(ROOT), OpEnqueue(WORSE)], OpEnqueue(BETTER));
    assert [OpEnqueue(ROOT), OpEnqueue(WORSE), OpEnqueue(BETTER)]
        == [OpEnqueue(ROOT), OpEnqueue(WORSE)] + [OpEnqueue(BETTER)];
    assert [OpEnqueue(ROOT), OpEnqueue(WORSE)] == [OpEnqueue(ROOT)] + [OpEnqueue(WORSE)];
  }

  /** With a delayed root the scan claims priority 5 although priority 1 is ready. */
  lemma DelayedRootClaimsTheWorse()
    ensures var m := DelayedRoot();
            FirstReady(m, 0, 0) == 1 && Ready(m.tasks, m.items[2], 0) && Less(m.items[2], m.items[1])
  {
    var m := DelayedRoot();
    assert !Ready(m.tasks, m.items[0], 0);
    assert Ready(m.tasks, m.items[1], 0);
    assert FirstReady(m, 0, 1) == 1;
  }

  // ---------- draining ----------

  /** The ids claimed by repeated dequeues at time `now`, until none is ready. */
  function Drain(m: MemState, now: Time): seq<MemItem>
    decreases |m.items|
  {
    var k := FirstReady(m, now, 0);
    if k < |m.items| then [m.items[k]] + Drain(Claim(m, k, now), now) else []
  }

  /** Every queued item is live, due and carries its task's current key. */
  ghost predicate AllDue(m: MemState, now: Time) {
    && QueueInv(m) && Mirrors(m)
    && (forall x :: x in m.items ==> Ready(m.tasks, x, now) && x == ItemOf(m.tasks[x.id]))
  }

  lemma ClaimRootContents(m: MemState, now: Time)
    requires AllDue(m, now) && m.items != []
    ensures FirstReady(m, now, 0) == 0
    ensures var r := Removed(m.items, 0);
            && multiset(r) == multiset(m.items) - multiset{m.items[0]}
            && (forall x :: x in r ==> x in m.items && x.id != m.items[0].id)
  {
    assert m.items[0] in m.items;
    var r := Removed(m.items, 0);
    RemoveContents(m.items, 0);
    assert IdBag(r)[m.items[0].id] == 0;
    forall x | x in r ensures x in m.items && x.id != m.items[0].id {
      assert x in multiset(r);
      assert x in multiset(m.items);
      IdBagHas(r, x.id);
    }
  }

  lemma ClaimRootKeepsAllDue(m: MemState, now: Time)
    requires AllDue(m, now) && m.items != [] && FirstReady(m, now, 0) == 0
    ensures AllDue(Claim(m, 0, now), now)
  {
    var m' := Claim(m, 0, now);
    assert Apply(m, OpDequeue(now)) == m';
    StepKeepsQueueInv(m, OpDequeue(now));
    MirrorBreaksExactly(m, OpDequeue(now));
    ClaimRootContents(m, now);
    forall x | x in m'.items ensures Ready(m'.tasks, x, now) && x == ItemOf(m'.tasks[x.id]) {
      assert m'.tasks[x.id] == m.tasks[x.id];
    }
  }

  ghost predicate Sorted(s: seq<MemItem>) {
    forall i, j :: 0 <= i < j < |s| ==> Le(s[i], s[j])
  }

  lemma RootPrecedesRest(m: MemState, rest: seq<MemItem>)
    requires HeapOrdered(m.items) && m.items != []
    requires multiset(rest) == multiset(m.items) - multiset{m.items[0]}
    ensures forall j :: 0 <= j < |rest| ==> Le(m.items[0], rest[j])
  {
    forall j | 0 <= j < |rest| ensures Le(m.items[0], rest[j]) {
      assert rest[j] in multiset(rest);
      assert rest[j] in multiset(m.items);
      var i :| 0 <= i < |m.items| && m.items[i] == rest[j];
      RootIsMinimal(m.items, i);
    }
  }

  lemma ConsSorts(x: MemItem, rest: seq<MemItem>)
    requires Sorted(rest) && forall j :: 0 <= j < |rest| ==> Le(x, rest[j])
    ensures Sorted([x] + rest) && multiset([x] + rest) == multiset{x} + multiset(rest)
  {
  }

  /** Draining a fully due queue yields exactly its items, sorted by (priority, created). */
  lemma {:induction false} DrainSorts(m: MemState, now: Time)
    requires AllDue(m, now)
    ensures Sorted(Drain(m, now)) && multiset(Drain(m, now)) == multiset(m.items)
    decreases |m.items|
  {
    if m.items != [] {
      var x := m.items[0];
      ClaimRootContents(m, now);
      ClaimRootKeepsAllDue(m, now);
      var m' := Claim(m, 0, now);
      var rest := Drain(m', now);
      DrainSorts(m', now);
      assert multiset(rest) == multiset(m.items) - multiset{x};
      RootPrecedesRest(m, rest);
      ConsSorts(x, rest);
      assert Drain(m, now) == [x] + rest;
      PutBack(multiset(m.items), multiset(rest), x);
    }
  }

  lemma PutBack(a: multiset<MemItem>, b: multiset<MemItem>, x: MemItem)
    requires x in a && b == a - multiset{x}
    ensures multiset{x} + b == a
  {
  }

  /** The task table read as a database table: every Pending task is queued and nothing is Delayed. */
  ghost predicate SameWork(m: MemState) {
    && (forall id :: id in m.tasks ==> m.tasks[id].status != Delayed)
    && (forall id :: id in m.tasks && m.tasks[id].status == Pending ==> id in m.inQueue)
  }

  lemma SelectableIsQueued(m: MemState, now: Time, id: TaskId)
    requires AllDue(m, now) && SameWork(m)
    ensures Rows.Selectable(m.tasks, id, now) <==> exists i :: 0 <= i < |m.items| && m.items[i].id == id
  {
    IdBagHas(m.items, id);
    if i :| 0 <= i < |m.items| && m.items[i].id == id {
      assert m.items[i] in m.items;
    }
  }

  lemma RootIsNextRow(m: MemState, now: Time)
    requires AllDue(m, now) && SameWork(m) && m.items != []
    ensures Rows.IsNext(m.tasks, m.items[0].id, now)
  {
    SelectableIsQueued(m, now, m.items[0].id);
    forall x | Rows.Selectable(m.tasks, x, now) ensures Rows.RowLe(m.tasks[m.items[0].id], m.tasks[x]) {
      SelectableIsQueued(m, now, x);
      var i :| 0 <= i < |m.items| && m.items[i].id == x;
      assert m.items[i] in m.items && m.items[0] in m.items;
      RootIsMinimal(m.items, i);
    }
  }

  lemma ClaimRootIsClaimRow(m: MemState, now: Time)
    requires AllDue(m, now) && SameWork(m) && m.items != []
    ensures m.items[0].id in m.tasks
    ensures Claim(m, 0, now).tasks == Rows.ClaimRow(m.tasks, m.items[0].id, now)
    ensures SameWork(Claim(m, 0, now))
  {
    assert m.items[0] in m.items;
  }

  lemma DrainUnfolds(m: MemState, now: Time)
    requires AllDue(m, now) && m.items != [] && FirstReady(m, now, 0) == 0
    ensures Ids(Drain(m, now)) == [m.items[0].id] + Ids(Drain(Claim(m, 0, now), now))
  {
  }

  lemma ClaimOrderCons(rows: Rows.Table, now: Time, id: TaskId, rest: seq<TaskId>)
    requires Rows.IsNext(rows, id, now) && Rows.ClaimOrder(Rows.ClaimRow(rows, id, now), now, rest)
    ensures Rows.ClaimOrder(rows, now, [id] + rest)
  {
    assert ([id] + rest)[1..] == rest;
  }

  lemma {:induction false} DrainIsClaimOrder(m: MemState, now: Time)
    requires AllDue(m, now) && SameWork(m)
    ensures Rows.ClaimOrder(m.tasks, now, Ids(Drain(m, now)))
    decreases |m.items|
  {
    if m.items != [] {
      ClaimRootContents(m, now);
      ClaimRootKeepsAllDue(m, now);
      RootIsNextRow(m, now);
      ClaimRootIsClaimRow(m, now);
      DrainIsClaimOrder(Claim(m, 0, now), now);
      DrainUnfolds(m, now);
      ClaimOrderCons(m.tasks, now, m.items[0].id, Ids(Drain(Claim(m, 0, now), now)));
    } else {
      forall x ensures !Rows.Selectable(m.tasks, x, now) {
        SelectableIsQueued(m, now, x);
      }
    }
  }

  /** The heap drains in an order the SQL claim may take; with distinct keys it is the only one. */
  lemma HeapDrainsLikeSql(m: MemState, now: Time, ids: seq<TaskId>)
    requires AllDue(m, now) && SameWork(m) && Rows.DistinctKeys(m.tasks, now)
    ensures Rows.ClaimOrder(m.tasks, now, ids) <==> ids == Ids(Drain(m, now))
  {
    DrainIsClaimOrder(m, now);
    if Rows.ClaimOrder(m.tasks, now, ids) {
      Rows.ClaimOrderIsUnique(m.tasks, now, ids, Ids(Drain(m, now)));
    }
  }

  // ---------- where the two kinds of backend differ ----------

  /** A queued task is claimable in both kinds of backend or in neither, except that SQL never takes a
      Delayed one and takes a Pending one already at the very instant of its schedule. */
  lemma ReadinessAgreesExactly(m: MemState, item: MemItem, now: Time)
    requires item.id in m.tasks
    ensures var t := m.tasks[item.id];
            (Ready(m.tasks, item, now) <==> Rows.Selectable(m.tasks, item.id, now))
            <==> !(t.status == Delayed && t.DueBefore(now)) && !(t.status == Pending && t.scheduledAt == Some(now))
  {
  }
}
