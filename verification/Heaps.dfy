/** The array heap behind the memory queue: `memHeapItems` (pool/memory_backend.go) and the
    `container/heap` algorithms that the backend runs over it.

    The functions describe what the algorithms do to the array; the lemmas show that they keep the
    heap order and the bag of items. Class `MemHeap` is the mutable slice with the algorithms as
    loops of swaps. */
module Heaps {
  import opened Tasks

  datatype MemItem = MemItem(id: TaskId, priority: int, created: Time)

  predicate Less(a: MemItem, b: MemItem) {
    if a.priority != b.priority then a.priority < b.priority else a.created < b.created
  }

  /** `a` need not come after `b`. */
  predicate Le(a: MemItem, b: MemItem) {
    !Less(b, a)
  }

  /** `Less` is a strict weak order, so `Le` is a total preorder; ties are exactly equal keys. */
  lemma LessIsStrictWeakOrder(a: MemItem, b: MemItem, c: MemItem)
    ensures !Less(a, a)
    ensures Less(a, b) ==> !Less(b, a)
    ensures Less(a, b) && Less(b, c) ==> Less(a, c)
    ensures Le(a, b) && Le(b, c) ==> Le(a, c)
    ensures Le(a, b) && Le(b, a) <==> a.priority == b.priority && a.created == b.created
  {
  }

  function Parent(j: int): int
  {
    (j - 1) / 2
  }

  function Swapped(s: seq<MemItem>, i: nat, j: nat): (r: seq<MemItem>)
    requires i < |s| && j < |s|
    ensures |r| == |s|
  {
    s[i := s[j]][j := s[i]]
  }

  /** heap `up`: the item at `j` climbs while it is less than its parent. */
  function Up(s: seq<MemItem>, j: nat): (r: seq<MemItem>)
    requires j < |s|
    ensures |r| == |s|
    decreases j
  {
    if j == 0 || !Less(s[j], s[Parent(j)]) then s else Up(Swapped(s, Parent(j), j), Parent(j))
  }

  /** The lesser child of `i` in the first `n` items, the left one on a tie. */
  function SmallChild(s: seq<MemItem>, i: nat, n: nat): nat
    requires 2 * i + 1 < n <= |s|
  {
    if 2 * i + 2 < n && Less(s[2 * i + 2], s[2 * i + 1]) then 2 * i + 2 else 2 * i + 1
  }

  /** Whether `down` moves the item at `i` at all. */
  predicate Sinks(s: seq<MemItem>, i: nat, n: nat)
    requires i < n <= |s|
  {
    2 * i + 1 < n && Less(s[SmallChild(s, i, n)], s[i])
  }

  /** heap `down`: the item at `i` sinks within the first `n` items. */
  function Down(s: seq<MemItem>, i: nat, n: nat): (r: seq<MemItem>)
    requires i < n <= |s|
    ensures |r| == |s|
    decreases n - i
  {
    if Sinks(s, i, n) then
      var c := SmallChild(s, i, n);
      Down(Swapped(s, i, c), c, n)
    else s
  }

  /** heap `Push`. */
  function Pushed(s: seq<MemItem>, x: MemItem): seq<MemItem> {
    Up(s + [x], |s|)
  }

  /** heap `Remove` at index `i`, before the final pop: the removed item is last. */
  function Extracted(s: seq<MemItem>, i: nat): (r: seq<MemItem>)
    requires i < |s|
    ensures |r| == |s|
  {
    var n := |s| - 1;
    if i == n then s
    else
      var t := Swapped(s, i, n);
      if Sinks(t, i, n) then Down(t, i, n) else Up(t, i)
  }

  /** heap `Remove` at index `i`: what is left. */
  function Removed(s: seq<MemItem>, i: nat): (r: seq<MemItem>)
    requires i < |s|
    ensures |r| == |s| - 1
  {
    Extracted(s, i)[..|s| - 1]
  }

  /** heap `Init`, with the positions below `i` still to be sifted down. */
  function Heapified(s: seq<MemItem>, i: nat): (r: seq<MemItem>)
    requires i <= |s|
    ensures |r| == |s|
    decreases i
  {
    if i == 0 then s else Heapified(Down(s, i - 1, |s|), i - 1)
  }

  // ---------- heap order ----------

  /** Parents at or above `lo` precede their children among the first `n` items. */
  ghost predicate OrderedFrom(s: seq<MemItem>, n: nat, lo: nat)
    requires n <= |s|
  {
    forall j :: 1 <= j < n && Parent(j) >= lo ==> Le(s[Parent(j)], s[j])
  }

  ghost predicate HeapOrdered(s: seq<MemItem>) {
    OrderedFrom(s, |s|, 0)
  }

  /** Ordered except that the item at `k` may be less than its parent. */
  ghost predicate RisingAt(s: seq<MemItem>, n: nat, k: nat)
    requires n <= |s|
  {
    && (forall j :: 1 <= j < n && j != k ==> Le(s[Parent(j)], s[j]))
    && (forall j :: 1 <= j < n && Parent(j) == k >= 1 ==> Le(s[Parent(k)], s[j]))
  }

  /** Ordered from `lo` except that the item at `k` may be greater than its children. */
  ghost predicate SinkingAt(s: seq<MemItem>, n: nat, lo: nat, k: nat)
    requires n <= |s|
  {
    && (forall j :: 1 <= j < n && Parent(j) >= lo && Parent(j) != k ==> Le(s[Parent(j)], s[j]))
    && (forall j :: 1 <= j < n && Parent(j) == k >= 1 && Parent(k) >= lo ==> Le(s[Parent(k)], s[j]))
  }

  /** Sifting touches no index at or above the bound. */
  lemma {:induction false} UpFrame(s: seq<MemItem>, k: nat, m: nat)
    requires k < m < |s|
    ensures Up(s, k)[m] == s[m]
    decreases k
  {
    if k != 0 && Less(s[k], s[Parent(k)]) {
      UpFrame(Swapped(s, Parent(k), k), Parent(k), m);
    }
  }

  lemma {:induction false} DownFrame(s: seq<MemItem>, k: nat, n: nat, m: nat)
    requires k < n <= m < |s|
    ensures Down(s, k, n)[m] == s[m]
    decreases n - k
  {
    if Sinks(s, k, n) {
      var c := SmallChild(s, k, n);
      DownFrame(Swapped(s, k, c), c, n, m);
    }
  }

  lemma {:induction false} UpRestoresOrder(s: seq<MemItem>, n: nat, k: nat)
    requires k < n <= |s| && RisingAt(s, n, k)
    ensures OrderedFrom(Up(s, k), n, 0)
    decreases k
  {
    if k != 0 && Less(s[k], s[Parent(k)]) {
      var p := Parent(k);
      var t := Swapped(s, p, k);
      assert RisingAt(t, n, p) by {
        forall j | 1 <= j < n && j != p ensures Le(t[Parent(j)], t[j]) {
          if Parent(j) == k { assert Le(s[p], s[j]); }
        }
      }
      UpRestoresOrder(t, n, p);
    }
  }

  lemma {:induction false} DownRestoresOrder(s: seq<MemItem>, n: nat, lo: nat, k: nat)
    requires lo <= k < n <= |s| && SinkingAt(s, n, lo, k)
    ensures OrderedFrom(Down(s, k, n), n, lo)
    decreases n - k
  {
    if Sinks(s, k, n) {
      var c := SmallChild(s, k, n);
      SinkStep(s, n, lo, k);
      DownRestoresOrder(Swapped(s, k, c), n, lo, c);
    } else {
      forall j | 1 <= j < n && Parent(j) == k ensures Le(s[k], s[j]) {
        assert j == 2 * k + 1 || j == 2 * k + 2;
      }
    }
  }

  /** One swap of `down` moves the only possible disorder one level down. */
  lemma SinkStep(s: seq<MemItem>, n: nat, lo: nat, k: nat)
    requires lo <= k < n <= |s| && SinkingAt(s, n, lo, k) && Sinks(s, k, n)
    ensures SinkingAt(Swapped(s, k, SmallChild(s, k, n)), n, lo, SmallChild(s, k, n))
  {
    var c := SmallChild(s, k, n);
    var t := Swapped(s, k, c);
    assert Parent(c) == k;
    forall j | 1 <= j < n && Parent(j) >= lo && Parent(j) != c ensures Le(t[Parent(j)], t[j]) {
      if Parent(j) == k {
        assert j == 2 * k + 1 || j == 2 * k + 2;
      } else if j == k {
        assert Le(s[Parent(k)], s[c]);
      }
    }
    forall j | 1 <= j < n && Parent(j) == c ensures Le(t[k], t[j]) {
      assert Le(s[c], s[j]);
    }
  }

  lemma PushKeepsOrder(s: seq<MemItem>, x: MemItem)
    requires HeapOrdered(s)
    ensures HeapOrdered(Pushed(s, x))
  {
    var t := s + [x];
    assert RisingAt(t, |t|, |s|) by {
      forall j | 1 <= j < |t| && j != |s| ensures Le(t[Parent(j)], t[j]) {
        assert Le(s[Parent(j)], s[j]);
      }
    }
    UpRestoresOrder(t, |t|, |s|);
  }

  /** After the last item replaced the one at `i`, only pairs touching `i` can be out of order. */
  lemma FillerIsAlone(s: seq<MemItem>, i: nat)
    requires i < |s| - 1 && HeapOrdered(s)
    ensures var t := Swapped(s, i, |s| - 1);
            && (forall j :: 1 <= j < |s| - 1 && j != i && Parent(j) != i ==> Le(t[Parent(j)], t[j]))
            && (forall j :: 1 <= j < |s| - 1 && Parent(j) == i >= 1 ==> Le(t[Parent(i)], t[j]))
  {
    var t := Swapped(s, i, |s| - 1);
    forall j | 1 <= j < |s| - 1 && Parent(j) == i >= 1 ensures Le(t[Parent(i)], t[j]) {
      assert Le(s[Parent(i)], s[i]) && Le(s[i], s[j]);
    }
  }

  lemma FillerSinks(s: seq<MemItem>, i: nat)
    requires i < |s| - 1 && HeapOrdered(s) && Sinks(Swapped(s, i, |s| - 1), i, |s| - 1)
    ensures OrderedFrom(Extracted(s, i), |s| - 1, 0)
  {
    var n := |s| - 1;
    var t := Swapped(s, i, n);
    var c := SmallChild(t, i, n);
    var u := Swapped(t, i, c);
    FillerIsAlone(s, i);
    assert Parent(c) == i;
    assert SinkingAt(u, n, 0, c) by {
      forall j | 1 <= j < n && Parent(j) != c ensures Le(u[Parent(j)], u[j]) {
        if Parent(j) == i { assert j == 2 * i + 1 || j == 2 * i + 2; }
      }
      forall j | 1 <= j < n && Parent(j) == c ensures Le(u[i], u[j]) {
        assert Le(t[c], t[j]);
      }
    }
    DownRestoresOrder(u, n, 0, c);
  }

  lemma FillerRises(s: seq<MemItem>, i: nat)
    requires i < |s| - 1 && HeapOrdered(s) && !Sinks(Swapped(s, i, |s| - 1), i, |s| - 1)
    ensures OrderedFrom(Extracted(s, i), |s| - 1, 0)
  {
    var n := |s| - 1;
    var t := Swapped(s, i, n);
    FillerIsAlone(s, i);
    forall j | 1 <= j < n && Parent(j) == i ensures Le(t[i], t[j]) {
      assert j == 2 * i + 1 || j == 2 * i + 2;
    }
    UpRestoresOrder(t, n, i);
  }

  /** Removing at any index keeps the order: the filler sinks or, failing that, climbs. */
  lemma RemoveKeepsOrder(s: seq<MemItem>, i: nat)
    requires i < |s| && HeapOrdered(s)
    ensures HeapOrdered(Removed(s, i))
  {
    var n := |s| - 1;
    assert OrderedFrom(Extracted(s, i), n, 0) by {
      if i < n {
        if Sinks(Swapped(s, i, n), i, n) { FillerSinks(s, i); } else { FillerRises(s, i); }
      }
    }
  }

  /** `Init` turns any array into a heap: every position from the last parent down is sifted. */
  lemma {:induction false} HeapifyOrders(s: seq<MemItem>, i: nat)
    requires i <= |s| && OrderedFrom(s, |s|, i)
    ensures HeapOrdered(Heapified(s, i))
    decreases i
  {
    if i > 0 {
      DownRestoresOrder(s, |s|, i - 1, i - 1);
      HeapifyOrders(Down(s, i - 1, |s|), i - 1);
    }
  }

  lemma InitOrders(s: seq<MemItem>)
    ensures HeapOrdered(Heapified(s, |s| / 2))
  {
    HeapifyOrders(s, |s| / 2);
  }

  // ---------- ancestors and the root ----------

  /** `a` lies on the path from `b` to the root (`b` itself included). */
  predicate Ancestor(a: nat, b: nat) {
    a == b || (b > 0 && Ancestor(a, Parent(b)))
  }

  lemma {:induction false} AncestorPrecedes(s: seq<MemItem>, a: nat, b: nat)
    requires HeapOrdered(s) && b < |s| && Ancestor(a, b)
    ensures a <= b && Le(s[a], s[b])
    decreases b
  {
    if a != b {
      AncestorPrecedes(s, a, Parent(b));
      LessIsStrictWeakOrder(s[a], s[Parent(b)], s[b]);
    }
  }

  lemma {:induction false} RootIsAncestor(b: nat)
    ensures Ancestor(0, b)
  {
    if b > 0 { RootIsAncestor(Parent(b)); }
  }

  /** The root of a heap is minimal. */
  lemma RootIsMinimal(s: seq<MemItem>, k: nat)
    requires HeapOrdered(s) && k < |s|
    ensures Le(s[0], s[k])
  {
    RootIsAncestor(k);
    AncestorPrecedes(s, 0, k);
  }

  // ---------- contents ----------

  function Ids(s: seq<MemItem>): (r: seq<TaskId>)
    ensures |r| == |s|
  {
    seq(|s|, i requires 0 <= i < |s| => s[i].id)
  }

  ghost function IdBag(s: seq<MemItem>): multiset<TaskId> {
    multiset(Ids(s))
  }

  /** The same items, possibly in another order. */
  ghost predicate Shuffled(s: seq<MemItem>, r: seq<MemItem>) {
    multiset(s) == multiset(r) && IdBag(s) == IdBag(r)
  }

  lemma SwapShuffles(s: seq<MemItem>, i: nat, j: nat)
    requires i < |s| && j < |s|
    ensures Shuffled(s, Swapped(s, i, j))
  {
    assert Ids(Swapped(s, i, j)) == Ids(s)[i := s[j].id][j := s[i].id];
    assert Ids(s)[i] == s[i].id && Ids(s)[j] == s[j].id;
  }

  lemma {:induction false} UpShuffles(s: seq<MemItem>, j: nat)
    requires j < |s|
    ensures Shuffled(s, Up(s, j))
    decreases j
  {
    if j != 0 && Less(s[j], s[Parent(j)]) {
      SwapShuffles(s, Parent(j), j);
      UpShuffles(Swapped(s, Parent(j), j), Parent(j));
    }
  }

  lemma {:induction false} DownShuffles(s: seq<MemItem>, i: nat, n: nat)
    requires i < n <= |s|
    ensures Shuffled(s, Down(s, i, n))
    decreases n - i
  {
    if Sinks(s, i, n) {
      var c := SmallChild(s, i, n);
      SwapShuffles(s, i, c);
      DownShuffles(Swapped(s, i, c), c, n);
    }
  }

  lemma {:induction false} HeapifyShuffles(s: seq<MemItem>, i: nat)
    requires i <= |s|
    ensures Shuffled(s, Heapified(s, i))
    decreases i
  {
    if i > 0 {
      DownShuffles(s, i - 1, |s|);
      HeapifyShuffles(Down(s, i - 1, |s|), i - 1);
    }
  }

  /** `Push` adds exactly the new item. */
  lemma PushContents(s: seq<MemItem>, x: MemItem)
    ensures multiset(Pushed(s, x)) == multiset(s) + multiset{x}
    ensures IdBag(Pushed(s, x)) == IdBag(s) + multiset{x.id}
  {
    assert Ids(s + [x]) == Ids(s) + [x.id];
    UpShuffles(s + [x], |s|);
  }

  lemma SplitLast(s: seq<MemItem>)
    requires |s| > 0
    ensures multiset(s) == multiset(s[..|s| - 1]) + multiset{s[|s| - 1]}
    ensures IdBag(s) == IdBag(s[..|s| - 1]) + multiset{s[|s| - 1].id}
  {
    assert s == s[..|s| - 1] + [s[|s| - 1]];
    assert Ids(s) == Ids(s[..|s| - 1]) + [s[|s| - 1].id];
  }

  lemma ExtractShuffles(s: seq<MemItem>, i: nat)
    requires i < |s|
    ensures Shuffled(s, Extracted(s, i))
  {
    var n := |s| - 1;
    if i != n {
      SwapShuffles(s, i, n);
      var t := Swapped(s, i, n);
      if Sinks(t, i, n) { DownShuffles(t, i, n); } else { UpShuffles(t, i); }
    }
  }

  /** The item that `Remove` pops is the one that was at `i`. */
  lemma ExtractedIsLast(s: seq<MemItem>, i: nat)
    requires i < |s|
    ensures Extracted(s, i)[|s| - 1] == s[i]
  {
    var n := |s| - 1;
    if i != n {
      var t := Swapped(s, i, n);
      if Sinks(t, i, n) { DownFrame(t, i, n, n); } else { UpFrame(t, i, n); }
    }
  }

  lemma BagMinus<T>(a: multiset<T>, b: multiset<T>, x: T)
    requires a == b + multiset{x}
    ensures b == a - multiset{x}
  {
  }

  /** `Remove` at `i` takes out exactly the item at `i`. */
  lemma RemoveContents(s: seq<MemItem>, i: nat)
    requires i < |s|
    ensures multiset(Removed(s, i)) == multiset(s) - multiset{s[i]}
    ensures IdBag(Removed(s, i)) == IdBag(s) - multiset{s[i].id}
  {
    var r := Removed(s, i);
    ExtractShuffles(s, i);
    ExtractedIsLast(s, i);
    SplitLast(Extracted(s, i));
    BagMinus(multiset(s), multiset(r), s[i]);
    BagMinus(IdBag(s), IdBag(r), s[i].id);
  }

  lemma IdBagHas(s: seq<MemItem>, id: TaskId)
    ensures id in IdBag(s) <==> exists i :: 0 <= i < |s| && s[i].id == id
  {
    if id in IdBag(s) {
      var i :| 0 <= i < |s| && Ids(s)[i] == id;
      assert s[i].id == id;
    }
    if i :| 0 <= i < |s| && s[i].id == id {
      assert Ids(s)[i] == id;
    }
  }

  // ---------- the mutable slice ----------

  class MemHeap {
    var h: seq<MemItem>

    constructor (items: seq<MemItem>)
      ensures h == items
    {
      h := items;
    }

    method Swap(i: nat, j: nat)
      requires i < |h| && j < |h|
      modifies this
      ensures h == Swapped(old(h), i, j)
    {
      h := h[i := h[j]][j := h[i]];
    }

    method SiftUp(j0: nat)
      requires j0 < |h|
      modifies this
      ensures h == Up(old(h), j0)
    {
      var j: nat := j0;
      while true
        invariant j < |h| && Up(h, j) == Up(old(h), j0)
        decreases j
      {
        var i := if j == 0 then 0 else (j - 1) / 2;
        if i == j || !Less(h[j], h[i]) {
          break;
        }
        Swap(i, j);
        j := i;
      }
    }

    /** Reports whether the item moved, as `down` does. */
    method SiftDown(i0: nat, n: nat) returns (moved: bool)
      requires i0 < n <= |h|
      modifies this
      ensures h == Down(old(h), i0, n)
      ensures moved == Sinks(old(h), i0, n)
    {
      var i := i0;
      while true
        invariant i0 <= i < n <= |h| && Down(h, i, n) == Down(old(h), i0, n)
        invariant i == i0 ==> h == old(h)
        invariant i > i0 ==> Sinks(old(h), i0, n)
        decreases n - i
      {
        var j1 := 2 * i + 1;
        if j1 >= n {
          break;
        }
        var j := j1;
        if j1 + 1 < n && Less(h[j1 + 1], h[j1]) {
          j := j1 + 1;
        }
        assert j == SmallChild(h, i, n);
        if !Less(h[j], h[i]) {
          break;
        }
        Swap(i, j);
        i := j;
      }
      moved := i > i0;
    }

    method Push(x: MemItem)
      modifies this
      ensures h == Pushed(old(h), x)
    {
      h := h + [x];
      SiftUp(|h| - 1);
    }

    method Remove(i: nat) returns (x: MemItem)
      requires i < |h|
      modifies this
      ensures h == Removed(old(h), i) && x == old(h)[i]
    {
      var n := |h| - 1;
      if n != i {
        Swap(i, n);
        var moved := SiftDown(i, n);
        if !moved {
          SiftUp(i);
        }
      }
      ExtractedIsLast(old(h), i);
      x := h[n];
      h := h[..n];
    }

    method Init()
      modifies this
      ensures h == Heapified(old(h), |old(h)| / 2)
    {
      var i: nat := |h| / 2;
      while i > 0
        invariant i <= |h| && Heapified(h, i) == Heapified(old(h), |old(h)| / 2)
      {
        i := i - 1;
        var _ := SiftDown(i, |h|);
      }
    }
  }
}
