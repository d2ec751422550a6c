/** Stop signals, cancel functions and the registry of running executions (pool/engine.go). */
module Signals {
  import opened Tasks
  import opened StoreSpec
  import opened Engine
  import opened Ownership
  import opened Execution
  import opened Capacity

  /** Worker `i` is inside executeTask for `id` and registered `token`. */
  predicate Backs(ws: seq<Worker>, i: nat, id: TaskId, token: nat) {
    i < |ws| && Listed(ws[i]) && ws[i].task.id == id && ws[i].token == token
  }

  ghost predicate BackedBySome(ws: seq<Worker>, id: TaskId, token: nat) {
    exists i: nat :: Backs(ws, i, id, token)
  }

  /** Every registry entry belongs to a worker still inside executeTask for that id. */
  ghost predicate RegistryBacked(c: Control, ws: seq<Worker>) {
    forall id :: id in c.registry ==> BackedBySome(ws, id, c.registry[id])
  }

  ghost predicate TokensUnique(c: Control, ws: seq<Worker>) {
    && (forall i :: 0 <= i < |ws| && Listed(ws[i]) ==> ws[i].token < c.next)
    && (forall i, j :: 0 <= i < |ws| && 0 <= j < |ws| && i != j && Listed(ws[i]) && Listed(ws[j])
          ==> ws[i].token != ws[j].token)
    && (forall t :: t in c.issued ==> t < c.next)
  }

  /** A worker before its intervention check whose cancel function was picked up finds its id signalled. */
  ghost predicate Signalled(c: Control, ws: seq<Worker>) {
    && c.cancelled <= c.issued
    && (forall i :: 0 <= i < |ws| && Unjudged(ws[i]) && ws[i].token in c.issued ==> ws[i].task.id in c.signals)
    && (forall id :: id in c.signals ==> c.signals[id] == Paused || c.signals[id] == Cancelled)
  }

  ghost predicate Controlled(c: Control, ws: seq<Worker>) {
    RegistryBacked(c, ws) && TokensUnique(c, ws) && Signalled(c, ws)
  }

  /** A worker step that neither registers nor unregisters nor reads the signals. */
  lemma MoveKeepsControlled(c: Control, ws: seq<Worker>, w: nat, x: Worker)
    requires Controlled(c, ws) && w < |ws|
    requires Listed(x) == Listed(ws[w]) && (Listed(x) ==> x.task == ws[w].task && x.token == ws[w].token)
    requires Unjudged(x) ==> Unjudged(ws[w])
    ensures Controlled(c, ws[w := x])
  {
    forall id | id in c.registry ensures BackedBySome(ws[w := x], id, c.registry[id]) {
      var i: nat :| Backs(ws, i, id, c.registry[id]);
      assert Backs(ws[w := x], i, id, c.registry[id]);
    }
  }

  lemma RegisterKeepsControlled(s: State, w: nat)
    requires Controlled(s.ctl, s.ws) && WorkerAt(s, w, Gauged)
    ensures var s' := Register(s, w); Controlled(s'.ctl, s'.ws)
  {
    var s' := Register(s, w);
    forall id | id in s'.ctl.registry ensures BackedBySome(s'.ws, id, s'.ctl.registry[id]) {
      if id == s.ws[w].task.id {
        assert Backs(s'.ws, w, id, s'.ctl.registry[id]);
      } else {
        var i: nat :| Backs(s.ws, i, id, s.ctl.registry[id]);
        assert Backs(s'.ws, i, id, s'.ctl.registry[id]);
      }
    }
  }

  /** Consuming a signal hurts nobody else: no other worker holds the id. */
  lemma JudgeKeepsControlled(s: State, lost: set<TaskId>, w: nat)
    requires Controlled(s.ctl, s.ws) && HoldersRun(s.store, s.ws, lost) && WorkerAt(s, w, Returned)
    ensures var s' := Judge(s, w); Controlled(s'.ctl, s'.ws)
  {
    var s' := Judge(s, w);
    forall id | id in s'.ctl.registry ensures BackedBySome(s'.ws, id, s'.ctl.registry[id]) {
      var i: nat :| Backs(s.ws, i, id, s.ctl.registry[id]);
      assert Backs(s'.ws, i, id, s'.ctl.registry[id]);
    }
    forall i | 0 <= i < |s'.ws| && Unjudged(s'.ws[i]) && s'.ws[i].token in s'.ctl.issued
      ensures s'.ws[i].task.id in s'.ctl.signals
    {
      assert i != w && Holds(s.ws[i]) && Holds(s.ws[w]);
    }
  }

  lemma UnlistKeepsControlled(s: State, w: nat)
    requires Controlled(s.ctl, s.ws) && Enabled(s, DoUnlist(w))
    ensures var s' := Unlist(s, w); Controlled(s'.ctl, s'.ws)
  {
    var s' := Unlist(s, w);
    forall id | id in s'.ctl.registry ensures BackedBySome(s'.ws, id, s'.ctl.registry[id]) {
      var i: nat :| Backs(s.ws, i, id, s.ctl.registry[id]);
      assert Backs(s'.ws, i, id, s'.ctl.registry[id]);
    }
  }

  /** The signal is recorded under the lock that also picks up the cancel function. */
  lemma SignalKeepsControlled(s: State, id: TaskId, status: TaskStatus)
    requires Controlled(s.ctl, s.ws) && Enabled(s, DoSignal(id, status))
    ensures Controlled(Signal(s, id, status).ctl, s.ws)
  {
    var c := Signal(s, id, status).ctl;
    var i: nat :| Backs(s.ws, i, id, s.ctl.registry[id]);
    forall j | 0 <= j < |s.ws| && Unjudged(s.ws[j]) && s.ws[j].token in c.issued
      ensures s.ws[j].task.id in c.signals
    {
      if s.ws[j].token == s.ctl.registry[id] { assert j == i; }
    }
  }

  /** The steps that change one worker's stand but neither the registry nor the signals. */
  predicate KeepsListing(step: Step) {
    || step.DoTake? || step.DoAdmit? || step.DoAbandon? || step.DoEnterGauge? || step.DoReject? || step.DoReturn?
    || step.DoReadCache? || step.DoFlushCached? || step.DoRecord? || step.DoCount? || step.DoFire? || step.DoLeaveGauge?
    || step.DoRelease?
  }

  /** What such a step leaves alone. */
  ghost predicate ListingKept(s: State, step: Step, s': State)
    requires Enabled(s, step) && KeepsListing(step)
  {
    && step.w < |s.ws| == |s'.ws| && s'.ws == s.ws[step.w := s'.ws[step.w]] && s'.ctl == s.ctl && s'.cfg == s.cfg
    && var x, y := s.ws[step.w], s'.ws[step.w];
    && Listed(y) == Listed(x) && (Listed(x) ==> y.task == x.task && y.token == x.token) && (Unjudged(y) ==> Unjudged(x))
  }

  lemma HoldingStepsKeepListing(s: State, step: Step)
    requires Enabled(s, step) && (step.DoTake? || step.DoAbandon? || step.DoReject? || step.DoRecord?)
    ensures ListingKept(s, step, Apply(s, step))
  {
  }

  lemma LateStepsKeepListing(s: State, step: Step)
    requires Enabled(s, step) && (step.DoReadCache? || step.DoFlushCached? || step.DoCount? || step.DoFire?)
    ensures ListingKept(s, step, Apply(s, step))
  {
  }

  lemma KeepsListingMoves(s: State, step: Step)
    requires Enabled(s, step) && KeepsListing(step)
    ensures ListingKept(s, step, Apply(s, step))
  {
    if step.DoTake? || step.DoAbandon? || step.DoReject? || step.DoRecord? { HoldingStepsKeepListing(s, step); }
    else if step.DoReadCache? || step.DoFlushCached? || step.DoCount? || step.DoFire? { LateStepsKeepListing(s, step); }
  }

  lemma StepKeepsControlled(s: State, lost: set<TaskId>, step: Step)
    requires Enabled(s, step) && Controlled(s.ctl, s.ws) && HoldersRun(s.store, s.ws, lost)
    ensures var s' := Apply(s, step); Controlled(s'.ctl, s'.ws)
  {
    if KeepsListing(step) {
      KeepsListingMoves(s, step);
      MoveKeepsControlled(s.ctl, s.ws, step.w, Apply(s, step).ws[step.w]);
    } else if step.DoRegister? {
      RegisterKeepsControlled(s, step.w);
    } else if step.DoJudge? {
      JudgeKeepsControlled(s, lost, step.w);
    } else if step.DoUnlist? {
      UnlistKeepsControlled(s, step.w);
    } else if step.DoSignal? {
      SignalKeepsControlled(s, step.id, step.status);
    }
  }

  /** Over all interleavings: the registry is backed, tokens are unique and no picked-up cancellation
      lacks its signal. */
  lemma {:induction false} ControlHoldsInRuns(s: State, lost: set<TaskId>, steps: seq<Step>)
    requires Owned(s.store, s.ws, lost) && Controlled(s.ctl, s.ws) && CanRun(s, steps)
    ensures var e := After(s, steps); Controlled(e.ctl, e.ws)
    decreases |steps|
  {
    if steps != [] {
      StepKeepsControlled(s, lost, steps[0]);
      StepKeepsOwned(s, lost, steps[0]);
      ControlHoldsInRuns(Apply(s, steps[0]), Lost(s, lost, steps[0]), steps[1..]);
    }
  }

  lemma InitIsControlled(cfg: Config, workers: nat)
    ensures var s := Init(cfg, workers); Controlled(s.ctl, s.ws)
  {
  }

  // ---------- a stopped execution ends stopped ----------

  /** Worker `w` runs `id` under `token`, of a known type, cancelled by a StopTask or Terminate before its
      intervention check; `retries` is the stored retry count. */
  predicate Stopping(s: State, w: nat, id: TaskId, token: nat, retries: int) {
    && w < |s.ws| && Unjudged(s.ws[w]) && Known(s, w)
    && s.ws[w].task.id == id && s.ws[w].token == token && token in s.ctl.cancelled
    && id in s.store.tasks && s.store.tasks[id].retries == retries
  }

  /** Past the check and before the final write. */
  predicate Writing(x: Worker) {
    x.pc == Judged || x.pc == Cached || x.pc == Flushed
  }

  /** Worker `w` makes its final write. */
  predicate Writes(step: Step, w: nat) {
    (step.DoRecord? && step.w == w) || (step.DoReject? && step.w == w)
  }

  /** It has passed the check and will write `status`. */
  predicate Sentenced(s: State, w: nat, id: TaskId, status: TaskStatus, retries: int) {
    && w < |s.ws| && Writing(s.ws[w]) && s.ws[w].task.id == id && s.ws[w].verdict == Intervene(status)
    && id in s.store.tasks && s.store.tasks[id].retries == retries
  }

  /** `id` is stored with this status and retry count. */
  predicate Stopped(s: Store, id: TaskId, status: TaskStatus, retries: int) {
    id in s.tasks && s.tasks[id].status == status && s.tasks[id].retries == retries
  }

  lemma OthersLeaveWorker(s: State, step: Step, w: nat)
    requires Enabled(s, step) && w < |s.ws| && Mover(step) != Some(w)
    ensures |Apply(s, step).ws| == |s.ws| && Apply(s, step).ws[w] == s.ws[w]
  {
    MoverShape(s, step);
  }

  lemma CancellationsStay(s: State, step: Step)
    requires Enabled(s, step)
    ensures s.ctl.cancelled <= Apply(s, step).ctl.cancelled && Apply(s, step).cfg == s.cfg
    ensures s.ctl.next <= Apply(s, step).ctl.next
  {
    if KeepsListing(step) { KeepsListingMoves(s, step); }
  }

  /** While a worker holds a task, nobody changes its retry count. */
  lemma HeldRetriesStay(s: State, lost: set<TaskId>, step: Step, w: nat)
    requires Enabled(s, step) && Owned(s.store, s.ws, lost) && w < |s.ws| && Holds(s.ws[w])
    requires |Apply(s, step).ws| == |s.ws| && Holds(Apply(s, step).ws[w]) && Apply(s, step).ws[w].task == s.ws[w].task
    ensures var s' := Apply(s, step);
            var id := s.ws[w].task.id;
            id in s'.store.tasks && s'.store.tasks[id].retries == s.store.tasks[id].retries
  {
    StepKeepsOwned(s, lost, step);
  }

  /** What the worker itself can do before the check: return, or reach the check. */
  lemma OwnStepBeforeCheck(s: State, step: Step, w: nat)
    requires Enabled(s, step) && w < |s.ws| && Unjudged(s.ws[w]) && Known(s, w) && Mover(step) == Some(w)
    ensures var s' := Apply(s, step);
            && |s'.ws| == |s.ws| && s'.ws[w].task == s.ws[w].task && s'.ws[w].token == s.ws[w].token && Holds(s'.ws[w])
            && (if step == DoJudge(w) then s'.ws[w].pc == Judged && s'.ws[w].verdict == VerdictFor(s, s.ws[w])
                else Unjudged(s'.ws[w]))
  {
  }

  /** The check finds the signal of the last writer, whatever the handler returned. */
  lemma StoppingStep(s: State, lost: set<TaskId>, step: Step, w: nat, id: TaskId, token: nat, retries: int)
    requires Enabled(s, step) && Owned(s.store, s.ws, lost) && Controlled(s.ctl, s.ws)
    requires Stopping(s, w, id, token, retries)
    ensures var s' := Apply(s, step);
            || Stopping(s', w, id, token, retries)
            || (step == DoJudge(w) && id in s.ctl.signals
                && (s.ctl.signals[id] == Paused || s.ctl.signals[id] == Cancelled)
                && Sentenced(s', w, id, s.ctl.signals[id], retries))
  {
    assert token in s.ctl.issued && id in s.ctl.signals;
    CancellationsStay(s, step);
    if Mover(step) == Some(w) { OwnStepBeforeCheck(s, step, w); } else { OthersLeaveWorker(s, step, w); }
    HeldRetriesStay(s, lost, step, w);
  }

  lemma SentencedWrites(s: State, lost: set<TaskId>, step: Step, w: nat, id: TaskId, status: TaskStatus, retries: int)
    requires Enabled(s, step) && Owned(s.store, s.ws, lost) && Writes(step, w)
    requires Sentenced(s, w, id, status, retries) && (status == Paused || status == Cancelled)
    ensures Stopped(Apply(s, step).store, id, status, retries)
  {
  }

  lemma OwnStepBeforeWrite(s: State, step: Step, w: nat)
    requires Enabled(s, step) && w < |s.ws| && Writing(s.ws[w]) && Mover(step) == Some(w) && !Writes(step, w)
    ensures var s' := Apply(s, step);
            && |s'.ws| == |s.ws| && Writing(s'.ws[w]) && s'.ws[w].task == s.ws[w].task
            && s'.ws[w].verdict == s.ws[w].verdict && s'.ws[w].token == s.ws[w].token && s'.ctl == s.ctl
  {
    match s.ws[w].pc
    case Judged => assert step.DoReadCache?;
    case Cached => assert step.DoFlushCached?;
  }

  /** The write stores exactly the recorded intent and leaves the retry count alone. */
  lemma SentencedStep(s: State, lost: set<TaskId>, step: Step, w: nat, id: TaskId, status: TaskStatus, retries: int)
    requires Enabled(s, step) && Owned(s.store, s.ws, lost)
    requires Sentenced(s, w, id, status, retries) && (status == Paused || status == Cancelled)
    ensures var s' := Apply(s, step);
            if Writes(step, w) then Stopped(s'.store, id, status, retries) else Sentenced(s', w, id, status, retries)
  {
    if Writes(step, w) {
      SentencedWrites(s, lost, step, w, id, status, retries);
    } else {
      if Mover(step) == Some(w) { OwnStepBeforeWrite(s, step, w); } else { OthersLeaveWorker(s, step, w); }
      HeldRetriesStay(s, lost, step, w);
    }
  }

  /** Worker `w`'s first write in the run, if there is one, stores `status` with this retry count. */
  ghost predicate FirstWriteStores(s: State, steps: seq<Step>, w: nat, id: TaskId, status: TaskStatus, retries: int)
    requires CanRun(s, steps)
    decreases |steps|
  {
    steps != [] ==>
      var s' := Apply(s, steps[0]);
      if Writes(steps[0], w) then Stopped(s'.store, id, status, retries)
      else FirstWriteStores(s', steps[1..], w, id, status, retries)
  }

  /** Worker `w` makes no write before its check, its check finds a signal, and its first write then stores the
      status recorded last by then. */
  ghost predicate EndsStopped(s: State, steps: seq<Step>, w: nat, id: TaskId, retries: int)
    requires CanRun(s, steps)
    decreases |steps|
  {
    steps != [] ==>
      var s' := Apply(s, steps[0]);
      if steps[0] == DoJudge(w) then
        && id in s.ctl.signals && (s.ctl.signals[id] == Paused || s.ctl.signals[id] == Cancelled)
        && FirstWriteStores(s', steps[1..], w, id, s.ctl.signals[id], retries)
      else !Writes(steps[0], w) && EndsStopped(s', steps[1..], w, id, retries)
  }

  lemma {:induction false} SentencedRuns(s: State, lost: set<TaskId>, steps: seq<Step>, w: nat, id: TaskId,
                                         status: TaskStatus, retries: int)
    requires Owned(s.store, s.ws, lost) && CanRun(s, steps)
    requires Sentenced(s, w, id, status, retries) && (status == Paused || status == Cancelled)
    ensures FirstWriteStores(s, steps, w, id, status, retries)
    decreases |steps|
  {
    if steps != [] {
      var step := steps[0];
      SentencedStep(s, lost, step, w, id, status, retries);
      StepKeepsOwned(s, lost, step);
      if !Writes(step, w) {
        SentencedRuns(Apply(s, step), Lost(s, lost, step), steps[1..], w, id, status, retries);
      }
    }
  }

  /** Once cancelled by StopTask or Terminate before its check, an execution of a known type ends Paused or
      Cancelled with its retry count unchanged, in every continuation of the run: its next write comes after its
      check and stores the intent recorded last by then. It is never retried, failed or completed. */
  lemma {:induction false} StopIsHonoured(s: State, lost: set<TaskId>, steps: seq<Step>, w: nat, id: TaskId,
                                          token: nat, retries: int)
    requires Owned(s.store, s.ws, lost) && Controlled(s.ctl, s.ws) && CanRun(s, steps)
    requires Stopping(s, w, id, token, retries)
    ensures EndsStopped(s, steps, w, id, retries)
    decreases |steps|
  {
    if steps != [] {
      var step := steps[0];
      var s' := Apply(s, step);
      StoppingStep(s, lost, step, w, id, token, retries);
      StepKeepsBoth(s, lost, step);
      if step == DoJudge(w) {
        StoppingMeetsSignal(s, lost, w, id, token, retries);
        SentencedRuns(s', Lost(s, lost, step), steps[1..], w, id, s.ctl.signals[id], retries);
      } else {
        UnjudgedDoesNotWrite(s, step, w);
        StopIsHonoured(s', Lost(s, lost, step), steps[1..], w, id, token, retries);
      }
    }
  }

  lemma UnjudgedDoesNotWrite(s: State, step: Step, w: nat)
    requires Enabled(s, step) && w < |s.ws| && Unjudged(s.ws[w]) && Known(s, w)
    ensures !Writes(step, w)
  {
  }

  lemma StoppingMeetsSignal(s: State, lost: set<TaskId>, w: nat, id: TaskId, token: nat, retries: int)
    requires Enabled(s, DoJudge(w)) && Owned(s.store, s.ws, lost) && Controlled(s.ctl, s.ws)
    requires Stopping(s, w, id, token, retries)
    ensures id in s.ctl.signals && (s.ctl.signals[id] == Paused || s.ctl.signals[id] == Cancelled)
    ensures Sentenced(Judge(s, w), w, id, s.ctl.signals[id], retries)
  {
  }

  /** The swapped order: the cancel function is picked up and called with nothing recorded yet. */
  function CancelFirst(s: State, id: TaskId): State
    requires id in s.ctl.registry
  {
    var token := s.ctl.registry[id];
    s.(ctl := s.ctl.(issued := s.ctl.issued + {token}, cancelled := s.ctl.cancelled + {token}))
  }

  function RecordAfterwards(s: State, id: TaskId, status: TaskStatus): State {
    s.(ctl := s.ctl.(signals := s.ctl.signals[id := status]))
  }

  /** Worker `w` from its handler's failure to its write. */
  function FailAndWrite(s: State, w: nat, now: Time): State
    requires WorkerAt(s, w, Executing) && Known(s, w)
  {
    Record(Prepared(Judge(Return(s, w, true), w), w), w, true, EMPTY, EMPTY, now)
  }

  /** With the two steps swapped, the handler's error can be judged before the intent is recorded: the task is
      retried and the intent is left for the next execution. In the order of the source it is stopped. */
  lemma CancelBeforeRecordRetries(s: State, lost: set<TaskId>, w: nat, status: TaskStatus, now: Time)
    requires Owned(s.store, s.ws, lost) && WorkerAt(s, w, Executing) && Known(s, w) && Reachable(s, w)
    requires s.ws[w].task.id !in s.ctl.signals && s.ws[w].task.retries < s.ws[w].task.maxRetries
    requires status == Paused || status == Cancelled
    ensures var id, retries, token := s.ws[w].task.id, s.ws[w].task.retries, s.ws[w].token;
            var swapped := RecordAfterwards(FailAndWrite(CancelFirst(s, id), w, now), id, status);
            && Stopped(FailAndWrite(Deliver(Signal(s, id, status), token), w, now).store, id, status, retries)
            && Stopped(swapped.store, id, Pending, retries + 1) && id in swapped.ctl.signals
  {
    assert Holds(s.ws[w]);
  }

  /** The unknown-type branch has no check: it fails the task and leaves the signal for the next execution. */
  lemma UnknownTypeIgnoresStop(s: State, lost: set<TaskId>, w: nat, error: Blob, now: Time)
    requires Owned(s.store, s.ws, lost) && WorkerAt(s, w, Executing) && !Known(s, w) && s.ws[w].task.id in s.ctl.signals
    ensures var s' := Reject(s, w, error, now);
            StatusOf(s'.store, s.ws[w].task.id) == Some(Failed) && s.ws[w].task.id in s'.ctl.signals
  {
    assert Holds(s.ws[w]);
  }

  // ---------- signals that come too late ----------

  predicate JudgesId(s: State, step: Step, id: TaskId) {
    step.DoJudge? && step.w < |s.ws| && s.ws[step.w].task.id == id
  }

  ghost predicate NoneJudges(s: State, steps: seq<Step>, id: TaskId)
    requires CanRun(s, steps)
    decreases |steps|
  {
    steps == [] || (!JudgesId(s, steps[0], id) && NoneJudges(Apply(s, steps[0]), steps[1..], id))
  }

  lemma SignalStays(s: State, step: Step, id: TaskId)
    requires Enabled(s, step) && id in s.ctl.signals && !JudgesId(s, step, id)
    ensures id in Apply(s, step).ctl.signals
  {
    if KeepsListing(step) { KeepsListingMoves(s, step); }
  }

  /** A signal outlives everything but an intervention check on its id. */
  lemma {:induction false} SignalStaysInRuns(s: State, steps: seq<Step>, id: TaskId)
    requires CanRun(s, steps) && id in s.ctl.signals && NoneJudges(s, steps, id)
    ensures id in After(s, steps).ctl.signals
    decreases |steps|
  {
    if steps != [] {
      SignalStays(s, steps[0], id);
      SignalStaysInRuns(Apply(s, steps[0]), steps[1..], id);
    }
  }

  /** The first check on `id` in the run, if there is one, takes the signal and stops its execution. */
  ghost predicate FirstCheckStops(s: State, steps: seq<Step>, id: TaskId)
    requires CanRun(s, steps)
    decreases |steps|
  {
    steps != [] ==>
      var s' := Apply(s, steps[0]);
      if JudgesId(s, steps[0], id)
      then steps[0].w < |s'.ws| && s'.ws[steps[0].w].verdict.Intervene? && id !in s'.ctl.signals
      else FirstCheckStops(s', steps[1..], id)
  }

  lemma {:induction false} LateSignalHitsTheNextExecution(s: State, steps: seq<Step>, id: TaskId)
    requires CanRun(s, steps) && id in s.ctl.signals
    ensures FirstCheckStops(s, steps, id)
    decreases |steps|
  {
    if steps != [] && !JudgesId(s, steps[0], id) {
      SignalStays(s, steps[0], id);
      LateSignalHitsTheNextExecution(Apply(s, steps[0]), steps[1..], id);
    }
  }

  /** Execution `token` of worker `w` still has its intervention check ahead: a known type, before the check. */
  predicate CheckAhead(s: State, w: nat, token: nat) {
    w < |s.ws| && s.ws[w].token == token && (s.ws[w].pc == Returned || (s.ws[w].pc == Executing && Known(s, w)))
  }

  /** Some step of the run is that execution's check, and it takes a signal and decides to stop. */
  ghost predicate Heeds(s: State, steps: seq<Step>, w: nat, token: nat)
    requires CanRun(s, steps)
    decreases |steps|
  {
    steps != [] &&
    var s' := Apply(s, steps[0]);
    || (steps[0] == DoJudge(w) && s.ws[w].token == token && w < |s'.ws| && s'.ws[w].verdict.Intervene?)
    || Heeds(s', steps[1..], w, token)
  }

  /** That execution's check is ahead and will find a signal for `x`'s id. */
  predicate Waits(s: State, w: nat, token: nat, x: Worker) {
    CheckAhead(s, w, token) && s.ws[w].task == x.task && x.task.id in s.ctl.signals
  }

  lemma OwnAwaitingStep(s: State, step: Step, w: nat, token: nat)
    requires Enabled(s, step) && CheckAhead(s, w, token) && s.ws[w].task.id in s.ctl.signals && Mover(step) == Some(w)
    ensures step == DoJudge(w) ==> w < |Apply(s, step).ws| && Apply(s, step).ws[w].verdict.Intervene?
    ensures step != DoJudge(w) ==> Waits(Apply(s, step), w, token, s.ws[w])
  {
    match s.ws[w].pc
    case Executing => assert step.DoReturn?;
    case Returned => assert step.DoJudge?;
  }

  lemma AwaitingStep(s: State, lost: set<TaskId>, step: Step, w: nat, token: nat)
    requires Enabled(s, step) && HoldersRun(s.store, s.ws, lost) && CheckAhead(s, w, token)
    requires s.ws[w].task.id in s.ctl.signals
    ensures step == DoJudge(w) ==> w < |Apply(s, step).ws| && Apply(s, step).ws[w].verdict.Intervene?
    ensures step != DoJudge(w) ==> Waits(Apply(s, step), w, token, s.ws[w])
  {
    assert Holds(s.ws[w]);
    if Mover(step) == Some(w) {
      OwnAwaitingStep(s, step, w, token);
    } else {
      CancellationsStay(s, step);
      OthersLeaveWorker(s, step, w);
      SignalStays(s, step, s.ws[w].task.id);
    }
  }

  lemma {:induction false} AwaitedIsHeeded(s: State, lost: set<TaskId>, steps: seq<Step>, w: nat, token: nat)
    requires CanRun(s, steps) && Owned(s.store, s.ws, lost) && CheckAhead(s, w, token)
    requires s.ws[w].task.id in s.ctl.signals
    ensures Heeds(s, steps, w, token) || CheckAhead(After(s, steps), w, token)
    decreases |steps|
  {
    if steps != [] {
      AwaitingStep(s, lost, steps[0], w, token);
      StepKeepsOwned(s, lost, steps[0]);
      if steps[0] != DoJudge(w) { AwaitedIsHeeded(Apply(s, steps[0]), Lost(s, lost, steps[0]), steps[1..], w, token); }
    }
  }

  /** An execution that is past its check, of an unknown type or over has no check again. */
  lemma NoCheckStaysAhead(s: State, step: Step, w: nat, token: nat)
    requires Enabled(s, step) && w < |s.ws| && token < s.ctl.next && !CheckAhead(s, w, token)
    ensures var s' := Apply(s, step);
            && w < |s'.ws| && token < s'.ctl.next && !CheckAhead(s', w, token)
            && !(step == DoJudge(w) && s.ws[w].token == token)
  {
    CancellationsStay(s, step);
    if Mover(step) != Some(w) { OthersLeaveWorker(s, step, w); }
  }

  lemma {:induction false} MissedIsNeverHeeded(s: State, steps: seq<Step>, w: nat, token: nat)
    requires CanRun(s, steps) && w < |s.ws| && token < s.ctl.next && !CheckAhead(s, w, token)
    ensures !Heeds(s, steps, w, token)
    decreases |steps|
  {
    if steps != [] {
      NoCheckStaysAhead(s, steps[0], w, token);
      MissedIsNeverHeeded(Apply(s, steps[0]), steps[1..], w, token);
    }
  }

  /** An accepted StopTask or Terminate stops the execution it was accepted for if and only if that execution
      still has its intervention check ahead: in every run in which the execution comes to its end, its check
      takes the signal in the one case and never in the other. */
  lemma SignalIsHeededExactly(s: State, lost: set<TaskId>, id: TaskId, status: TaskStatus, w: nat, steps: seq<Step>)
    requires Owned(s.store, s.ws, lost) && Controlled(s.ctl, s.ws) && Enabled(s, DoSignal(id, status))
    requires Backs(s.ws, w, id, s.ctl.registry[id]) && CanRun(Signal(s, id, status), steps)
    requires !Backs(After(Signal(s, id, status), steps).ws, w, id, s.ctl.registry[id])
    ensures Heeds(Signal(s, id, status), steps, w, s.ctl.registry[id]) <==> CheckAhead(s, w, s.ctl.registry[id])
  {
    var s1, token := Signal(s, id, status), s.ctl.registry[id];
    StepKeepsOwned(s, lost, DoSignal(id, status));
    if CheckAhead(s, w, token) {
      AwaitedIsHeeded(s1, lost, steps, w, token);
      AwaitedKeepsTask(s1, lost, steps, w, token);
    } else {
      MissedIsNeverHeeded(s1, steps, w, token);
    }
  }

  lemma {:induction false} AwaitedKeepsTask(s: State, lost: set<TaskId>, steps: seq<Step>, w: nat, token: nat)
    requires CanRun(s, steps) && Owned(s.store, s.ws, lost) && CheckAhead(s, w, token)
    requires s.ws[w].task.id in s.ctl.signals
    ensures Heeds(s, steps, w, token) || Backs(After(s, steps).ws, w, s.ws[w].task.id, token)
    decreases |steps|
  {
    if steps != [] {
      AwaitingStep(s, lost, steps[0], w, token);
      StepKeepsOwned(s, lost, steps[0]);
      if steps[0] != DoJudge(w) { AwaitedKeepsTask(Apply(s, steps[0]), Lost(s, lost, steps[0]), steps[1..], w, token); }
    }
  }

  /** Holding its task with no check ahead: judged already, or of an unknown type. */
  predicate PastCheck(s: State, w: nat) {
    w < |s.ws| && (Writing(s.ws[w]) || (s.ws[w].pc == Executing && !Known(s, w)))
  }

  /** The same execution with the same verdict. */
  predicate SameVerdict(x: Worker, y: Worker) {
    x.task == y.task && x.token == y.token && x.verdict == y.verdict
  }

  lemma PastCheckStep(s: State, lost: set<TaskId>, step: Step, w: nat)
    requires Enabled(s, step) && HoldersRun(s.store, s.ws, lost) && PastCheck(s, w) && s.ws[w].task.id in s.ctl.signals
    ensures s.ws[w].task.id in Apply(s, step).ctl.signals
    ensures !Writes(step, w) ==> StillPast(Apply(s, step), w, s.ws[w])
  {
    assert Holds(s.ws[w]);
    SignalStays(s, step, s.ws[w].task.id);
    if Mover(step) != Some(w) {
      CancellationsStay(s, step);
      OthersLeaveWorker(s, step, w);
    } else if !Writes(step, w) {
      OwnStepStaysPast(s, step, w);
    }
  }

  predicate StillPast(s: State, w: nat, x: Worker) {
    PastCheck(s, w) && SameVerdict(s.ws[w], x)
  }

  lemma OwnStepStaysPast(s: State, step: Step, w: nat)
    requires Enabled(s, step) && PastCheck(s, w) && Mover(step) == Some(w) && !Writes(step, w)
    ensures StillPast(Apply(s, step), w, s.ws[w])
  {
    if Writing(s.ws[w]) { OwnStepBeforeWrite(s, step, w); }
  }

  /** Worker `w`'s first write in the run, if there is one, is that of execution `x` with the verdict it had, and `x`'s
      id is signalled before and after it. */
  ghost predicate FirstWriteIgnores(s: State, steps: seq<Step>, w: nat, x: Worker)
    requires CanRun(s, steps)
    decreases |steps|
  {
    steps != [] ==>
      var s' := Apply(s, steps[0]);
      if Writes(steps[0], w) then
        w < |s.ws| && SameVerdict(s.ws[w], x) && x.task.id in s.ctl.signals && x.task.id in s'.ctl.signals
      else FirstWriteIgnores(s', steps[1..], w, x)
  }

  /** A signal that comes too late does not touch the execution: in every continuation the worker's next write is made
      with the verdict it had, and the signal outlives it. */
  lemma {:induction false} LateSignalIsIgnored(s: State, lost: set<TaskId>, steps: seq<Step>, w: nat, x: Worker)
    requires CanRun(s, steps) && Owned(s.store, s.ws, lost) && PastCheck(s, w) && SameVerdict(s.ws[w], x)
    requires s.ws[w].task.id in s.ctl.signals
    ensures FirstWriteIgnores(s, steps, w, x)
    decreases |steps|
  {
    if steps != [] {
      PastCheckStep(s, lost, steps[0], w);
      StepKeepsOwned(s, lost, steps[0]);
      if !Writes(steps[0], w) {
        LateSignalIsIgnored(Apply(s, steps[0]), Lost(s, lost, steps[0]), steps[1..], w, x);
      }
    }
  }

  // ---------- the registry ----------

  /** The entry of worker `v`'s execution is in the registry, so StopTask can reach it. */
  predicate Reachable(s: State, v: nat) {
    v < |s.ws| && Backs(s.ws, v, s.ws[v].task.id, s.ws[v].token)
    && s.ws[v].task.id in s.ctl.registry && s.ctl.registry[s.ws[v].task.id] == s.ws[v].token
  }

  /** Worker `x` is in its registered execution `token` and has not written its outcome. */
  predicate InExecution(x: Worker, token: nat) {
    Holds(x) && Listed(x) && x.token == token
  }

  /** Another worker unregisters the id that `v` is executing. */
  predicate Hides(s: State, step: Step, v: nat) {
    && step.DoUnlist? && step.w != v && step.w < |s.ws| && v < |s.ws|
    && s.ws[step.w].task.id == s.ws[v].task.id
  }

  lemma HolderMoves(s: State, step: Step, v: nat)
    requires Enabled(s, step) && v < |s.ws| && Holds(s.ws[v]) && Listed(s.ws[v])
    ensures var s' := Apply(s, step);
            && v < |s'.ws| && (InExecution(s'.ws[v], s.ws[v].token) ==> s'.ws[v].task == s.ws[v].task)
            && !(step == DoUnlist(v)) && !(step == DoRegister(v))
  {
    if Mover(step) != Some(v) { OthersLeaveWorker(s, step, v); }
  }

  lemma RegistrySteps(s: State, step: Step)
    requires Enabled(s, step)
    ensures Apply(s, step).ctl.registry
         == if step.DoRegister? then s.ctl.registry[s.ws[step.w].task.id := s.ctl.next]
            else if step.DoUnlist? then s.ctl.registry - {s.ws[step.w].task.id}
            else s.ctl.registry
  {
    if KeepsListing(step) { KeepsListingMoves(s, step); }
    else if Mover(step).None? { CallsKeepRegistry(s, step); }
  }

  lemma CallsKeepRegistry(s: State, step: Step)
    requires Enabled(s, step) && Mover(step).None?
    ensures Apply(s, step).ctl.registry == s.ctl.registry
  {
  }

  /** Of all steps, exactly another worker's unregistration of the same id hides an execution from StopTask. */
  lemma UnlistHidesExactly(s: State, lost: set<TaskId>, step: Step, v: nat)
    requires Enabled(s, step) && HoldersRun(s.store, s.ws, lost) && Reachable(s, v) && Holds(s.ws[v])
    requires v < |Apply(s, step).ws| && InExecution(Apply(s, step).ws[v], s.ws[v].token)
    ensures Reachable(Apply(s, step), v) <==> !Hides(s, step, v)
  {
    HolderMoves(s, step, v);
    RegistrySteps(s, step);
  }

  /** A hidden execution stays hidden: only the worker that holds the id could register it. */
  lemma HiddenStays(s: State, lost: set<TaskId>, step: Step, v: nat)
    requires Enabled(s, step) && HoldersRun(s.store, s.ws, lost)
    requires v < |s.ws| && Holds(s.ws[v]) && Listed(s.ws[v]) && s.ws[v].task.id !in s.ctl.registry
    ensures s.ws[v].task.id !in Apply(s, step).ctl.registry
  {
    HolderMoves(s, step, v);
    RegistrySteps(s, step);
  }

  /** Tokens are issued once, so an execution that is over does not come back. */
  lemma NeverResumes(s: State, step: Step, v: nat, token: nat)
    requires Enabled(s, step) && v < |s.ws| && token < s.ctl.next && !InExecution(s.ws[v], token)
    ensures var s' := Apply(s, step); v < |s'.ws| && token < s'.ctl.next && !InExecution(s'.ws[v], token)
  {
    CancellationsStay(s, step);
    if Mover(step) != Some(v) { OthersLeaveWorker(s, step, v); } else { OwnStepResumesNothing(s, step, v, token); }
  }

  lemma OwnStepResumesNothing(s: State, step: Step, v: nat, token: nat)
    requires Enabled(s, step) && v < |s.ws| && token < s.ctl.next && !InExecution(s.ws[v], token)
              && Mover(step) == Some(v)
    ensures v < |Apply(s, step).ws| && !InExecution(Apply(s, step).ws[v], token)
  {
    if KeepsListing(step) {
      KeepsListingMoves(s, step);
      HoldersOnlyLeave(s, step);
    }
  }

  lemma {:induction false} NeverResumesInRuns(s: State, steps: seq<Step>, v: nat, token: nat)
    requires CanRun(s, steps) && v < |s.ws| && token < s.ctl.next && !InExecution(s.ws[v], token)
    ensures v < |After(s, steps).ws| && !InExecution(After(s, steps).ws[v], token)
    decreases |steps|
  {
    if steps != [] {
      NeverResumes(s, steps[0], v, token);
      NeverResumesInRuns(Apply(s, steps[0]), steps[1..], v, token);
    }
  }

  ghost predicate HiddenIn(s: State, steps: seq<Step>, v: nat)
    requires CanRun(s, steps)
    decreases |steps|
  {
    steps != [] && (Hides(s, steps[0], v) || HiddenIn(Apply(s, steps[0]), steps[1..], v))
  }

  /** An execution that is there at the end of a run was there after its first step. */
  lemma ExecutionGoesOn(s: State, lost: set<TaskId>, steps: seq<Step>, v: nat)
    requires CanRun(s, steps) && steps != [] && Owned(s.store, s.ws, lost) && Controlled(s.ctl, s.ws)
    requires v < |s.ws| && Holds(s.ws[v]) && Listed(s.ws[v])
    requires v < |After(s, steps).ws| && InExecution(After(s, steps).ws[v], s.ws[v].token)
    ensures var s' := Apply(s, steps[0]);
            v < |s'.ws| && InExecution(s'.ws[v], s.ws[v].token) && s'.ws[v].task == s.ws[v].task
  {
    var s' := Apply(s, steps[0]);
    HolderMoves(s, steps[0], v);
    CancellationsStay(s, steps[0]);
    if !InExecution(s'.ws[v], s.ws[v].token) { NeverResumesInRuns(s', steps[1..], v, s.ws[v].token); }
  }

  lemma StepKeepsBoth(s: State, lost: set<TaskId>, step: Step)
    requires Enabled(s, step) && Owned(s.store, s.ws, lost) && Controlled(s.ctl, s.ws)
    ensures var s' := Apply(s, step); Owned(s'.store, s'.ws, Lost(s, lost, step)) && Controlled(s'.ctl, s'.ws)
  {
    StepKeepsOwned(s, lost, step);
    StepKeepsControlled(s, lost, step);
  }

  lemma {:induction false} HiddenStaysInRuns(s: State, lost: set<TaskId>, steps: seq<Step>, v: nat)
    requires CanRun(s, steps) && Owned(s.store, s.ws, lost) && Controlled(s.ctl, s.ws)
    requires v < |s.ws| && Holds(s.ws[v]) && Listed(s.ws[v]) && s.ws[v].task.id !in s.ctl.registry
    requires v < |After(s, steps).ws| && InExecution(After(s, steps).ws[v], s.ws[v].token)
    ensures !Reachable(After(s, steps), v)
    decreases |steps|
  {
    if steps != [] {
      ExecutionGoesOn(s, lost, steps, v);
      HiddenStays(s, lost, steps[0], v);
      StepKeepsBoth(s, lost, steps[0]);
      HiddenStaysInRuns(Apply(s, steps[0]), Lost(s, lost, steps[0]), steps[1..], v);
    }
  }

  /** As long as an execution has not written its outcome, StopTask and Terminate can reach it if and only if no
      other worker has unregistered its id since. */
  lemma {:induction false} ReachableExactly(s: State, lost: set<TaskId>, steps: seq<Step>, v: nat)
    requires CanRun(s, steps) && Owned(s.store, s.ws, lost) && Controlled(s.ctl, s.ws)
    requires Reachable(s, v) && Holds(s.ws[v])
    requires v < |After(s, steps).ws| && InExecution(After(s, steps).ws[v], s.ws[v].token)
    ensures Reachable(After(s, steps), v) <==> !HiddenIn(s, steps, v)
    decreases |steps|
  {
    if steps != [] {
      ExecutionGoesOn(s, lost, steps, v);
      UnlistHidesExactly(s, lost, steps[0], v);
      StepKeepsBoth(s, lost, steps[0]);
      if Hides(s, steps[0], v) {
        HiddenStaysInRuns(Apply(s, steps[0]), Lost(s, lost, steps[0]), steps[1..], v);
      } else {
        ReachableExactly(Apply(s, steps[0]), Lost(s, lost, steps[0]), steps[1..], v);
      }
    }
  }

  // ---------- what registration says about a running task ----------

  /** A registered worker that still holds its task owns the entry of its id, if there is one. */
  ghost predicate OwnEntries(c: Control, ws: seq<Worker>) {
    forall i :: 0 <= i < |ws| && Holds(ws[i]) && Listed(ws[i]) && ws[i].task.id in c.registry
      ==> c.registry[ws[i].task.id] == ws[i].token
  }

  lemma StepKeepsOwnEntries(s: State, lost: set<TaskId>, step: Step)
    requires Enabled(s, step) && HoldersRun(s.store, s.ws, lost) && OwnEntries(s.ctl, s.ws)
    ensures OwnEntries(Apply(s, step).ctl, Apply(s, step).ws)
  {
    if KeepsListing(step) {
      KeepsListingMoves(s, step);
      HoldersOnlyLeave(s, step);
    }
  }

  lemma HoldersOnlyLeave(s: State, step: Step)
    requires Enabled(s, step) && KeepsListing(step)
    ensures var x, y := s.ws[step.w], Apply(s, step).ws[step.w];
            Holds(y) && Listed(y) ==> Holds(x) && Listed(x)
  {
  }

  lemma {:induction false} OwnEntriesInRuns(s: State, lost: set<TaskId>, steps: seq<Step>)
    requires CanRun(s, steps) && Owned(s.store, s.ws, lost) && OwnEntries(s.ctl, s.ws)
    ensures OwnEntries(After(s, steps).ctl, After(s, steps).ws)
    decreases |steps|
  {
    if steps != [] {
      StepKeepsOwnEntries(s, lost, steps[0]);
      StepKeepsOwned(s, lost, steps[0]);
      OwnEntriesInRuns(Apply(s, steps[0]), Lost(s, lost, steps[0]), steps[1..]);
    }
  }

  /** `v` has written its outcome for `id`, but its entry is still there. */
  predicate Leftover(s: State, v: nat, id: TaskId) {
    Reachable(s, v) && !Holds(s.ws[v]) && s.ws[v].task.id == id
  }

  /** A call accepted for a held id picks up the holder's own cancel function if and only if the holder has
      registered; otherwise it picks up that of a worker whose outcome is already written. */
  lemma StopReachesTheHolder(s: State, lost: set<TaskId>, id: TaskId, w: nat)
    requires Owned(s.store, s.ws, lost) && Controlled(s.ctl, s.ws) && OwnEntries(s.ctl, s.ws)
    requires Holder(s.ws, w, id) && id in s.ctl.registry
    ensures Backs(s.ws, w, id, s.ctl.registry[id]) <==> Listed(s.ws[w])
    ensures Listed(s.ws[w]) <==> !exists v: nat :: Leftover(s, v, id)
  {
    var i: nat :| Backs(s.ws, i, id, s.ctl.registry[id]);
    if Listed(s.ws[w]) {
      assert forall v: nat :: Reachable(s, v) && s.ws[v].task.id == id ==> s.ws[v].token == s.ws[w].token;
    } else {
      assert Leftover(s, i, id);
    }
  }

  /** StopTask on a task stored as Running is refused exactly when its holder is not reachable (it has not
      registered yet, or was hidden by another worker, or the task was abandoned) and no finished worker's entry
      stands in for it. */
  lemma StopIsRefusedExactly(s: State, lost: set<TaskId>, id: TaskId)
    requires Owned(s.store, s.ws, lost) && Controlled(s.ctl, s.ws) && StatusOf(s.store, id) == Some(Running)
    ensures id !in s.ctl.registry
       <==> (forall w: nat :: Holder(s.ws, w, id) ==> !Reachable(s, w)) && (forall v: nat :: !Leftover(s, v, id))
    ensures id in lost <==> !HeldBySome(s.ws, id)
  {
    if id in s.ctl.registry {
      var i: nat :| Backs(s.ws, i, id, s.ctl.registry[id]);
      assert Reachable(s, i);
      assert Holder(s.ws, i, id) || Leftover(s, i, id);
    }
    if HeldBySome(s.ws, id) { var i: nat :| Holder(s.ws, i, id); }
  }

  /** With one worker the registry holds exactly the registered execution. */
  predicate ExactRegistry(c: Control, ws: seq<Worker>)
    requires |ws| == 1
  {
    c.registry == if Listed(ws[0]) then map[ws[0].task.id := ws[0].token] else map[]
  }

  lemma StepKeepsExactRegistry(s: State, step: Step)
    requires Enabled(s, step) && |s.ws| == 1 && ExactRegistry(s.ctl, s.ws)
    ensures |Apply(s, step).ws| == 1 && ExactRegistry(Apply(s, step).ctl, Apply(s, step).ws)
  {
    if KeepsListing(step) { KeepsListingMoves(s, step); }
  }

  lemma {:induction false} SequentialRegistryIsExact(s: State, steps: seq<Step>)
    requires CanRun(s, steps) && |s.ws| == 1 && ExactRegistry(s.ctl, s.ws)
    ensures var e := After(s, steps); |e.ws| == 1 && ExactRegistry(e.ctl, e.ws)
    decreases |steps|
  {
    if steps != [] {
      StepKeepsExactRegistry(s, steps[0]);
      SequentialRegistryIsExact(Apply(s, steps[0]), steps[1..]);
    }
  }

  // ---------- from the start ----------

  /** In every run from the start: registry, tokens and signals are in order, and registered holders own the entries
      of their ids. */
  lemma ControlFromStart(cfg: Config, workers: nat, steps: seq<Step>)
    requires CanRun(Init(cfg, workers), steps)
    ensures var e := After(Init(cfg, workers), steps); Controlled(e.ctl, e.ws) && OwnEntries(e.ctl, e.ws)
  {
    var s := Init(cfg, workers);
    InitIsOwned(cfg, workers);
    InitIsControlled(cfg, workers);
    ControlHoldsInRuns(s, {}, steps);
    OwnEntriesInRuns(s, {}, steps);
  }

  /** A pool in sequential mode never has a hidden or foreign entry. */
  lemma SequentialFromStart(cfg: Config, steps: seq<Step>)
    requires CanRun(Init(cfg, 1), steps)
    ensures var e := After(Init(cfg, 1), steps); |e.ws| == 1 && ExactRegistry(e.ctl, e.ws)
  {
    SequentialRegistryIsExact(Init(cfg, 1), steps);
  }
}
