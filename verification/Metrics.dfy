/** Global and per-type counters and the latency arithmetic (pool/metrics.go). */
module Metrics {
  import opened Tasks

  const MILLISECOND := 1_000_000

  function Get(m: map<Kind, int>, k: Kind): int {
    if k in m then m[k] else 0
  }

  function Bumped(m: map<Kind, int>, k: Kind, delta: int): map<Kind, int> {
    m[k := Get(m, k) + delta]
  }

  /** The sum of a per-type counter. */
  ghost function Total(m: map<Kind, int>): int {
    if m == map[] then 0 else
      var k :| k in m;
      m[k] + Total(m - {k})
  }

  lemma {:induction false} TotalWithout(m: map<Kind, int>, k: Kind)
    requires k in m
    ensures Total(m) == m[k] + Total(m - {k})
    decreases |m|
  {
    var x :| x in m && Total(m) == m[x] + Total(m - {x});
    if x != k {
      TotalWithout(m - {x}, k);
      TotalWithout(m - {k}, x);
      assert m - {x} - {k} == m - {k} - {x};
    }
  }

  /** Bumping moves the counter of one type, from nothing if need be, and no other. */
  lemma BumpedExactly(m: map<Kind, int>, k: Kind, delta: int)
    ensures var b := Bumped(m, k, delta);
            && b.Keys == m.Keys + {k} && b[k] == (if k in m then m[k] else 0) + delta
            && forall x :: x in m && x != k ==> b[x] == m[x]
  {
  }

  lemma TotalBumped(m: map<Kind, int>, k: Kind, delta: int)
    ensures Total(Bumped(m, k, delta)) == Total(m) + delta
  {
    var b := Bumped(m, k, delta);
    TotalWithout(b, k);
    assert b - {k} == m - {k};
    if k in m {
      TotalWithout(m, k);
    } else {
      assert m - {k} == m;
    }
  }

  // ---------- latency ----------

  /** Go's integer division, for a positive divisor. */
  function Quot(a: int, b: int): int
    requires b > 0
  {
    if a >= 0 then a / b else -((-a) / b)
  }

  lemma Divides(m: int, b: int, q: int)
    requires m >= 0 && b > 0 && q == m / b
    ensures 0 <= q && b * q <= m < b * q + b && b * -q == -(b * q)
  {
    assert m == b * q + m % b;
  }

  /** The quotient is rounded toward zero: it has the sign of `a` and is the largest in magnitude that fits. */
  lemma QuotTruncates(a: int, b: int)
    requires b > 0
    ensures a >= 0 ==> 0 <= Quot(a, b) && b * Quot(a, b) <= a < b * Quot(a, b) + b
    ensures a <= 0 ==> Quot(a, b) <= 0 && b * Quot(a, b) - b < a <= b * Quot(a, b)
  {
    var m := if a >= 0 then a else -a;
    Divides(m, b, m / b);
  }

  lemma DivIsUnique(a: int, d: int, q: int)
    requires d > 0 && q * d <= a < q * d + d
    ensures a / d == q
  {
    var m := a / d - q;
    assert m * d == (a / d) * d - q * d;
    assert -d < m * d < d;
    assert m == 0;
  }

  lemma NestedBounds(b: int, c: int, q: int, r: int, s: int)
    requires 0 <= r < b && 0 <= s < c
    ensures var a := b * (c * q + s) + r; q * (b * c) <= a < q * (b * c) + b * c
  {
    assert b * (c * q + s) == q * (b * c) + b * s;
    TimesOrdered(b, 0, s);
    TimesOrdered(b, s + 1, c);
  }

  lemma TimesOrdered(b: int, x: int, y: int)
    requires b >= 0 && x <= y
    ensures b * x <= b * y && b * (x + 1) == b * x + b
  {
  }

  lemma NestedDiv(a: int, b: int, c: int)
    requires a >= 0 && b > 0 && c > 0
    ensures b * c > 0 && a / b / c == a / (b * c)
  {
    var q, r := a / b, a % b;
    var p, s := q / c, q % c;
    assert a == b * q + r && q == c * p + s;
    NestedBounds(b, c, p, r, s);
    DivIsUnique(a, b * c, p);
  }

  /** Rounding to whole milliseconds first loses nothing: the reported average is the total in nanoseconds
      divided by a million times the count, truncated once. */
  lemma AverageTruncatesOnce(sum: int, count: int)
    requires count > 0
    ensures MILLISECOND * count > 0
    ensures Quot(Quot(sum, MILLISECOND), count) == Quot(sum, MILLISECOND * count)
  {
    if sum >= 0 {
      NestedDiv(sum, MILLISECOND, count);
    } else {
      NestedDiv(-sum, MILLISECOND, count);
      assert Quot(sum, MILLISECOND) == -((-sum) / MILLISECOND);
    }
  }

  datatype TypeStats = TypeStats(submitted: int, completed: int, failed: int, running: int, avgLatencyMs: int,
                                 totalLatencyMs: int)

  datatype MetricsSnapshot = MetricsSnapshot(tasksSubmitted: int, tasksCompleted: int, tasksFailed: int,
                                             progressUpdates: int, types: map<Kind, TypeStats>)

  class Metrics {
    var tasksSubmitted: int
    var tasksCompleted: int
    var tasksFailed: int
    var progressUpdates: int
    var typeSubmit: map<Kind, int>
    var typeDone: map<Kind, int>
    var typeFail: map<Kind, int>
    var typeRun: map<Kind, int>
    var latSum: map<Kind, int>
    var latCnt: map<Kind, int>

    /** Each global counter is the sum of its per-type counters, and each latency sum has its count. */
    ghost predicate Valid()
      reads this
    {
      && tasksSubmitted == Total(typeSubmit) && tasksCompleted == Total(typeDone) && tasksFailed == Total(typeFail)
      && latSum.Keys == latCnt.Keys && (forall k :: k in latCnt ==> latCnt[k] > 0)
    }

    constructor ()
      ensures Valid() && tasksSubmitted == tasksCompleted == tasksFailed == progressUpdates == 0 && typeRun == map[]
    {
      tasksSubmitted, tasksCompleted, tasksFailed, progressUpdates := 0, 0, 0, 0;
      typeSubmit, typeDone, typeFail, typeRun, latSum, latCnt := map[], map[], map[], map[], map[], map[];
    }

    method IncSubmitted(k: Kind)
      requires Valid()
      modifies this`tasksSubmitted, this`typeSubmit
      ensures Valid() && tasksSubmitted == old(tasksSubmitted) + 1 && typeSubmit == Bumped(old(typeSubmit), k, 1)
    {
      TotalBumped(typeSubmit, k, 1);
      tasksSubmitted := tasksSubmitted + 1;
      typeSubmit := typeSubmit[k := (if k in typeSubmit then typeSubmit[k] else 0) + 1];
    }

    method IncCompleted(k: Kind)
      requires Valid()
      modifies this`tasksCompleted, this`typeDone
      ensures Valid() && tasksCompleted == old(tasksCompleted) + 1 && typeDone == Bumped(old(typeDone), k, 1)
    {
      TotalBumped(typeDone, k, 1);
      tasksCompleted := tasksCompleted + 1;
      typeDone := typeDone[k := (if k in typeDone then typeDone[k] else 0) + 1];
    }

    method IncFailed(k: Kind)
      requires Valid()
      modifies this`tasksFailed, this`typeFail
      ensures Valid() && tasksFailed == old(tasksFailed) + 1 && typeFail == Bumped(old(typeFail), k, 1)
    {
      TotalBumped(typeFail, k, 1);
      tasksFailed := tasksFailed + 1;
      typeFail := typeFail[k := (if k in typeFail then typeFail[k] else 0) + 1];
    }

    method AddRunning(k: Kind, delta: int)
      requires Valid()
      modifies this`typeRun
      ensures Valid() && typeRun == Bumped(old(typeRun), k, delta)
    {
      typeRun := typeRun[k := (if k in typeRun then typeRun[k] else 0) + delta];
    }

    method AddLatency(k: Kind, nanos: int)
      requires Valid()
      modifies this`latSum, this`latCnt
      ensures Valid() && latSum == Bumped(old(latSum), k, nanos) && latCnt == Bumped(old(latCnt), k, 1)
    {
      latSum := latSum[k := (if k in latSum then latSum[k] else 0) + nanos];
      latCnt := latCnt[k := (if k in latCnt then latCnt[k] else 0) + 1];
    }

    method IncProgressUpdates()
      requires Valid()
      modifies this`progressUpdates
      ensures Valid() && progressUpdates == old(progressUpdates) + 1
    {
      progressUpdates := progressUpdates + 1;
    }

    /** What the snapshot says about type `k`; an average is only reported for a type with a latency. */
    ghost predicate Describes(t: TypeStats, k: Kind)
      reads this
    {
      && t.submitted == Get(typeSubmit, k) && t.completed == Get(typeDone, k) && t.failed == Get(typeFail, k)
      && t.running == Get(typeRun, k)
      && (if k in latSum && k in latCnt && latCnt[k] > 0
          then t.totalLatencyMs == Quot(latSum[k], MILLISECOND) && MILLISECOND * latCnt[k] > 0
               && t.avgLatencyMs == Quot(latSum[k], MILLISECOND * latCnt[k])
          else t.totalLatencyMs == 0 && t.avgLatencyMs == 0)
    }

    ghost predicate DescribesAll(stats: map<Kind, TypeStats>)
      reads this
    {
      forall k :: k in stats ==> Describes(stats[k], k)
    }

    lemma DescribesOneMore(stats: map<Kind, TypeStats>, k: Kind, t: TypeStats)
      requires DescribesAll(stats) && Describes(t, k)
      ensures DescribesAll(stats[k := t])
    {
    }

    method StatsOf(k: Kind) returns (t: TypeStats)
      ensures Describes(t, k)
    {
      var avgMs, totalMs := 0, 0;
      if k in latSum && k in latCnt && latCnt[k] > 0 {
        totalMs := Quot(latSum[k], MILLISECOND);
        avgMs := Quot(totalMs, latCnt[k]);
        AverageTruncatesOnce(latSum[k], latCnt[k]);
      }
      t := TypeStats(Get(typeSubmit, k), Get(typeDone, k), Get(typeFail, k), Get(typeRun, k), avgMs, totalMs);
    }

    /** The statistics of exactly the types with a counter. */
    method CollectStats() returns (stats: map<Kind, TypeStats>)
      ensures stats.Keys == typeSubmit.Keys + typeDone.Keys + typeFail.Keys + typeRun.Keys
      ensures DescribesAll(stats)
    {
      var types := typeSubmit.Keys + typeDone.Keys + typeFail.Keys + typeRun.Keys;
      stats := map[];
      var todo := types;
      while todo != {}
        invariant todo <= types && stats.Keys == types - todo
        invariant DescribesAll(stats)
        decreases |todo|
      {
        var k :| k in todo;
        var t := StatsOf(k);
        DescribesOneMore(stats, k, t);
        stats := stats[k := t];
        todo := todo - {k};
      }
    }

    /** The global counters, the statistics of every type with a counter, and totals that add up. */
    method Snapshot() returns (snap: MetricsSnapshot)
      requires Valid()
      ensures snap.types.Keys == typeSubmit.Keys + typeDone.Keys + typeFail.Keys + typeRun.Keys
      ensures DescribesAll(snap.types)
      ensures snap.tasksSubmitted == Total(typeSubmit) && snap.tasksCompleted == Total(typeDone)
      ensures snap.tasksFailed == Total(typeFail) && snap.progressUpdates == progressUpdates
    {
      var stats := CollectStats();
      snap := MetricsSnapshot(tasksSubmitted, tasksCompleted, tasksFailed, progressUpdates, stats);
    }
  }
}
