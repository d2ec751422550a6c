/** Type-level concurrency limits and the running gauges (pool/engine.go, pool/metrics.go). */
module Capacity {
  import opened Tasks
  import opened Engine

  /** How many workers satisfy `p`. */
  function Count(ws: seq<Worker>, p: Worker -> bool): (n: nat)
    ensures n <= |ws|
  {
    if ws == [] then 0 else Count(ws[..|ws| - 1], p) + (if p(ws[|ws| - 1]) then 1 else 0)
  }

  lemma {:induction false} CountUpdate(ws: seq<Worker>, p: Worker -> bool, w: nat, x: Worker)
    requires w < |ws|
    ensures Count(ws[w := x], p) + (if p(ws[w]) then 1 else 0) == Count(ws, p) + (if p(x) then 1 else 0)
  {
    var n := |ws| - 1;
    if w == n {
      assert ws[w := x][..n] == ws[..n];
    } else {
      assert ws[w := x][..n] == ws[..n][w := x];
      CountUpdate(ws[..n], p, w, x);
    }
  }

  lemma {:induction false} CountPositive(ws: seq<Worker>, p: Worker -> bool)
    ensures Count(ws, p) > 0 <==> exists i :: 0 <= i < |ws| && p(ws[i])
  {
    if ws != [] {
      var n := |ws| - 1;
      CountPositive(ws[..n], p);
      if i :| 0 <= i < n && p(ws[..n][i]) { assert p(ws[i]); }
      if i :| 0 <= i < |ws| && p(ws[i]) { assert i == n || p(ws[..n][i]); }
    }
  }

  /** Past the semaphore with a task of type `k`. */
  function PassedOf(k: Kind): Worker -> bool {
    x => HasPassed(x) && x.task.kind == k
  }

  /** Counted as running with a task of type `k`. */
  function GaugedOf(k: Kind): Worker -> bool {
    x => InGauge(x) && x.task.kind == k
  }

  ghost predicate Metered(s: State) {
    && (forall k :: k in s.cfg.limits ==>
          At(s.res.sem, k) == Count(s.ws, PassedOf(k)) && Count(s.ws, PassedOf(k)) <= s.cfg.limits[k])
    && (forall k :: At(s.res.gauge, k) == Count(s.ws, GaugedOf(k)))
  }

  lemma WorkerStepShape(s: State, step: Step)
    requires Enabled(s, step) && Mover(step).Some?
    ensures var s', w := Apply(s, step), Mover(step).value;
            s'.cfg == s.cfg && w < |s.ws| == |s'.ws| && s'.ws == s.ws[w := s'.ws[w]]
  {
  }

  lemma CallShape(s: State, step: Step)
    requires Enabled(s, step) && Mover(step).None?
    ensures var s' := Apply(s, step); s'.cfg == s.cfg && s'.ws == s.ws && s'.res == s.res
  {
  }

  lemma MoverShape(s: State, step: Step)
    requires Enabled(s, step)
    ensures var s' := Apply(s, step);
            && s'.cfg == s.cfg
            && (match Mover(step)
                case Some(w) => w < |s.ws| == |s'.ws| && s'.ws == s.ws[w := s'.ws[w]]
                case None => s'.ws == s.ws && s'.res == s.res)
  {
    if Mover(step).Some? { WorkerStepShape(s, step); } else { CallShape(s, step); }
  }

  function Is(b: bool): int {
    if b then 1 else 0
  }

  /** The steps through the semaphore and the gauge. */
  predicate PassesGate(step: Step) {
    step.DoAdmit? || step.DoRelease? || step.DoEnterGauge? || step.DoLeaveGauge?
  }

  lemma GatesFollowPhase(s: State, step: Step, k: Kind)
    requires Enabled(s, step) && PassesGate(step)
    ensures var s' := Apply(s, step);
            var a, b := s.ws[step.w], s'.ws[step.w];
            && (k in s.cfg.limits ==> At(s'.res.sem, k) - At(s.res.sem, k) == Is(PassedOf(k)(b)) - Is(PassedOf(k)(a)))
            && At(s'.res.gauge, k) - At(s.res.gauge, k) == Is(GaugedOf(k)(b)) - Is(GaugedOf(k)(a))
  {
    if step.DoEnterGauge? || step.DoLeaveGauge? { GaugeFollowsPhase(s, step, k); }
  }

  lemma GaugeFollowsPhase(s: State, step: Step, k: Kind)
    requires Enabled(s, step) && (step.DoEnterGauge? || step.DoLeaveGauge?)
    ensures var s' := Apply(s, step);
            var a, b := s.ws[step.w], s'.ws[step.w];
            && (k in s.cfg.limits ==> At(s'.res.sem, k) - At(s.res.sem, k) == Is(PassedOf(k)(b)) - Is(PassedOf(k)(a)))
            && At(s'.res.gauge, k) - At(s.res.gauge, k) == Is(GaugedOf(k)(b)) - Is(GaugedOf(k)(a))
  {
  }

  lemma OtherStepsKeepSections(s: State, step: Step, w: nat, k: Kind)
    requires Enabled(s, step) && Mover(step) == Some(w) && !PassesGate(step)
    ensures var s' := Apply(s, step);
            && s'.res == s.res && w < |s.ws| == |s'.ws|
            && PassedOf(k)(s'.ws[w]) == PassedOf(k)(s.ws[w]) && GaugedOf(k)(s'.ws[w]) == GaugedOf(k)(s.ws[w])
  {
    OtherStepsStayInside(s, step, w);
  }

  lemma OtherStepsStayInside(s: State, step: Step, w: nat)
    requires Enabled(s, step) && Mover(step) == Some(w) && !PassesGate(step)
    ensures var s' := Apply(s, step);
            && s'.res == s.res && w < |s.ws| == |s'.ws|
            && HasPassed(s'.ws[w]) == HasPassed(s.ws[w]) && InGauge(s'.ws[w]) == InGauge(s.ws[w])
            && (HasPassed(s.ws[w]) ==> s'.ws[w].task == s.ws[w].task)
  {
    if step.DoTake? || step.DoAbandon? || step.DoReject? || step.DoRecord? { HoldingStepsStayInside(s, step, w); }
    else if step.DoReadCache? || step.DoFlushCached? || step.DoFire? || step.DoCount? {
      LateStepsStayInside(s, step, w);
    }
  }

  lemma LateStepsStayInside(s: State, step: Step, w: nat)
    requires Enabled(s, step) && Mover(step) == Some(w)
    requires step.DoReadCache? || step.DoFlushCached? || step.DoFire? || step.DoCount?
    ensures var s' := Apply(s, step);
            && s'.res == s.res && w < |s.ws| == |s'.ws|
            && HasPassed(s'.ws[w]) == HasPassed(s.ws[w]) && InGauge(s'.ws[w]) == InGauge(s.ws[w])
            && (HasPassed(s.ws[w]) ==> s'.ws[w].task == s.ws[w].task)
  {
  }

  lemma HoldingStepsStayInside(s: State, step: Step, w: nat)
    requires Enabled(s, step) && Mover(step) == Some(w)
    requires step.DoTake? || step.DoAbandon? || step.DoReject? || step.DoRecord?
    ensures var s' := Apply(s, step);
            && s'.res == s.res && w < |s.ws| == |s'.ws|
            && HasPassed(s'.ws[w]) == HasPassed(s.ws[w]) && InGauge(s'.ws[w]) == InGauge(s.ws[w])
            && (HasPassed(s.ws[w]) ==> s'.ws[w].task == s.ws[w].task)
  {
  }

  /** The effect of one step on the resources, seen from the worker's phase change. */
  lemma ResourcesFollowPhase(s: State, step: Step, w: nat, k: Kind)
    requires Enabled(s, step) && Mover(step) == Some(w) && w < |s.ws| == |Apply(s, step).ws|
    ensures var s' := Apply(s, step);
            var a, b := s.ws[w], s'.ws[w];
            && (k in s.cfg.limits ==> At(s'.res.sem, k) - At(s.res.sem, k) == Is(PassedOf(k)(b)) - Is(PassedOf(k)(a)))
            && At(s'.res.gauge, k) - At(s.res.gauge, k) == Is(GaugedOf(k)(b)) - Is(GaugedOf(k)(a))
  {
    if PassesGate(step) { GatesFollowPhase(s, step, k); } else { OtherStepsKeepSections(s, step, w, k); }
  }

  lemma AdmissionChecksSlot(s: State, step: Step, w: nat, k: Kind)
    requires Enabled(s, step) && Mover(step) == Some(w) && w < |s.ws| == |Apply(s, step).ws|
    requires k in s.cfg.limits && PassedOf(k)(Apply(s, step).ws[w]) && !PassedOf(k)(s.ws[w])
    ensures At(s.res.sem, k) < s.cfg.limits[k]
  {
    if !PassesGate(step) { OtherStepsKeepSections(s, step, w, k); }
  }

  lemma StepKeepsMetered(s: State, step: Step)
    requires Enabled(s, step) && Metered(s)
    ensures Metered(Apply(s, step))
  {
    var s' := Apply(s, step);
    MoverShape(s, step);
    if Mover(step).Some? {
      var w := Mover(step).value;
      forall k ensures At(s'.res.gauge, k) == Count(s'.ws, GaugedOf(k)) {
        ResourcesFollowPhase(s, step, w, k);
        CountUpdate(s.ws, GaugedOf(k), w, s'.ws[w]);
      }
      forall k | k in s.cfg.limits
        ensures At(s'.res.sem, k) == Count(s'.ws, PassedOf(k)) && Count(s'.ws, PassedOf(k)) <= s.cfg.limits[k]
      {
        ResourcesFollowPhase(s, step, w, k);
        CountUpdate(s.ws, PassedOf(k), w, s'.ws[w]);
        if PassedOf(k)(s'.ws[w]) && !PassedOf(k)(s.ws[w]) { AdmissionChecksSlot(s, step, w, k); }
      }
    }
  }

  /** In every reachable state the workers of a limited type past its semaphore never exceed its limit, and
      every gauge is the number of workers in its gauged section. */
  lemma {:induction false} LimitsHoldInRuns(s: State, steps: seq<Step>)
    requires Metered(s) && CanRun(s, steps)
    ensures Metered(After(s, steps))
    decreases |steps|
  {
    if steps != [] {
      StepKeepsMetered(s, steps[0]);
      LimitsHoldInRuns(Apply(s, steps[0]), steps[1..]);
    }
  }

  lemma {:induction false} NoneCounted(n: nat, p: Worker -> bool)
    requires !p(IDLE)
    ensures Count(seq(n, _ => IDLE), p) == 0
  {
    CountPositive(seq(n, _ => IDLE), p);
  }

  lemma InitIsMetered(cfg: Config, workers: nat)
    ensures Metered(Init(cfg, workers))
  {
    forall k ensures Count(Init(cfg, workers).ws, PassedOf(k)) == 0 && Count(Init(cfg, workers).ws, GaugedOf(k)) == 0 {
      NoneCounted(workers, PassedOf(k));
      NoneCounted(workers, GaugedOf(k));
    }
  }

  lemma LimitsFromStart(cfg: Config, workers: nat, steps: seq<Step>)
    requires CanRun(Init(cfg, workers), steps)
    ensures Metered(After(Init(cfg, workers), steps))
  {
    InitIsMetered(cfg, workers);
    LimitsHoldInRuns(Init(cfg, workers), steps);
  }

  // ---------- all gauges together ----------

  predicate Distinct(ks: seq<Kind>) {
    forall i, j :: 0 <= i < j < |ks| ==> ks[i] != ks[j]
  }

  function GaugeTotal(gauge: map<Kind, int>, ks: seq<Kind>): int {
    if ks == [] then 0 else GaugeTotal(gauge, ks[..|ks| - 1]) + At(gauge, ks[|ks| - 1])
  }

  function GaugedIn(ks: seq<Kind>): Worker -> bool {
    x => InGauge(x) && x.task.kind in ks
  }

  lemma {:induction false} CountSplits(ws: seq<Worker>, ks: seq<Kind>, k: Kind)
    requires k !in ks
    ensures Count(ws, GaugedIn(ks + [k])) == Count(ws, GaugedIn(ks)) + Count(ws, GaugedOf(k))
  {
    if ws != [] { CountSplits(ws[..|ws| - 1], ks, k); }
  }

  lemma {:induction false} TotalIsCount(s: State, ks: seq<Kind>)
    requires Metered(s) && Distinct(ks)
    ensures GaugeTotal(s.res.gauge, ks) == Count(s.ws, GaugedIn(ks))
    decreases |ks|
  {
    if ks == [] {
      CountPositive(s.ws, GaugedIn(ks));
    } else {
      var n := |ks| - 1;
      TotalIsCount(s, ks[..n]);
      CountSplits(s.ws, ks[..n], ks[n]);
      assert ks == ks[..n] + [ks[n]];
    }
  }

  /** The gauges of any distinct types sum to at most the number of workers. */
  lemma GaugesSumToWorkers(s: State, ks: seq<Kind>)
    requires Metered(s) && Distinct(ks)
    ensures 0 <= GaugeTotal(s.res.gauge, ks) <= |s.ws|
  {
    TotalIsCount(s, ks);
  }

  // ---------- no worker waits for ever ----------

  predicate WorkerStep(step: Step) {
    Mover(step).Some?
  }

  /** The step a worker outside Dequeue and the semaphore can always take. */
  function NextStep(s: State, w: nat): Step
    requires w < |s.ws| && HasPassed(s.ws[w])
  {
    match s.ws[w].pc
    case Admitted => DoEnterGauge(w)
    case Gauged => DoRegister(w)
    case Executing => if Known(s, w) then DoReturn(w, false) else DoReject(w, EMPTY, 0)
    case Returned => DoJudge(w)
    case Judged => if s.ws[w].verdict == Intervene(Paused) then DoReadCache(w) else DoRecord(w, true, EMPTY, EMPTY, 0)
    case Cached => DoFlushCached(w)
    case Flushed => DoRecord(w, true, EMPTY, EMPTY, 0)
    case Recorded => DoCount(w)
    case Counted => if s.ws[w].fire then DoFire(w) else DoUnlist(w)
    case Unlisted => DoLeaveGauge(w)
    case Ungauged => DoRelease(w)
    case _ => DoRelease(w)
  }

  lemma NextStepIsEnabled(s: State, w: nat)
    requires w < |s.ws| && HasPassed(s.ws[w])
    ensures WorkerStep(NextStep(s, w)) && Enabled(s, NextStep(s, w))
  {
  }

  ghost predicate SomeWorkerStep(s: State) {
    exists step: Step :: WorkerStep(step) && Enabled(s, step)
  }

  /** With positive limits, as long as some worker is not idle some worker can step: a full semaphore is
      full of workers that can. */
  lemma NoWorkerDeadlock(s: State, w: nat)
    requires Metered(s) && w < |s.ws| && s.ws[w].pc != Idle
    requires forall k :: k in s.cfg.limits ==> s.cfg.limits[k] > 0
    ensures SomeWorkerStep(s)
  {
    if HasPassed(s.ws[w]) {
      NextStepIsEnabled(s, w);
    } else if HasSlot(s, w) {
      assert WorkerStep(DoAdmit(w)) && Enabled(s, DoAdmit(w));
    } else {
      var k := s.ws[w].task.kind;
      CountPositive(s.ws, PassedOf(k));
      var v :| 0 <= v < |s.ws| && PassedOf(k)(s.ws[v]);
      NextStepIsEnabled(s, v);
    }
  }
}
