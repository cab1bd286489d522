/** What becomes of a run whose worker is shut down in the middle of its execution. */
module Shutdowns {
  import opened Wrappers
  import opened RunDomain
  import opened RunStore
  import opened WorkerMachine
  import opened Cluster
  import opened ClusterSteps
  import opened Exclusion
  import opened Finalization
  import opened Executions
  import opened Crashes
  import opened Causality

  /** How the executor of a worker ends in an execution, if it does. */
  function OutcomeIn(actions: seq<Action>, w: WorkerId): Option<ExecutionOutcome> {
    if actions == [] then None
    else if actions[0].Work? && actions[0].w == w && actions[0].act.Finish? then Some(actions[0].act.outcome)
    else OutcomeIn(actions[1..], w)
  }

  function OutcomeAfter(past: Option<ExecutionOutcome>, a: Action, w: WorkerId): Option<ExecutionOutcome> {
    if past.None? && a.Work? && a.w == w && a.act.Finish? then Some(a.act.outcome) else past
  }

  /** `execute_run` is over, and a worker that may not go on is on its way out of the loop. */
  predicate GoneBy(p: Phase, id: RunId) {
    p == Leaving(id, false) || p.Looping? || p.Stopped?
  }

  function EndOf(outcome: ExecutionOutcome): StatusCode {
    match outcome
    case Normal => StatusCode.Cancelled
    case Raised(_) => Failed
  }

  /**
   * After a shutdown: the run is being executed, or the executor has ended and the finalizing call is
   * still to come, or it has ended the run; unless someone has asked for cancellation meanwhile, or
   * the worker was killed.
   */
  predicate Halting(r: Run, wk: Worker, id: RunId, past: Option<ExecutionOutcome>) {
    || Intended(r) || wk.phase.Killed?
    || (!wk.allowed && match past
        case None => wk.phase == Executing(id) && wk.ctx == Some(true) && r.status == StatusCode.Running
        case Some(outcome) =>
          || (wk.phase == AfterExecution(id, outcome) && wk.ctx == Some(true) && r.status == StatusCode.Running)
          || (GoneBy(wk.phase, id) && r.status == EndOf(outcome)))
  }

  ghost predicate HaltingAt(s: System, w: WorkerId, id: RunId, past: Option<ExecutionOutcome>) {
    && w in s.workers && id in s.store.runs && Started(s.store.runs[id])
    && Halting(s.store.runs[id], s.workers[w], id, past)
  }

  // ----- the worker's own steps

  /** While it executes, and up to the finalizing call, no step but Finish changes the phase. */
  lemma OwnPhase(s: Store, clock: real, w: WorkerId, wk: Worker, act: Act, id: RunId)
    requires RunStore.Valid(s) && Possible(s, clock, wk, act) && !act.Finalize? && !act.Claim?
    requires Busy(wk.phase) == Some(id) && !wk.phase.Holding? && wk.ctx == Some(true) && !wk.allowed
    ensures
      var next := WorkerStep(s, clock, w, wk, act).1;
      || next.phase.Killed?
      || (&& next.ctx == Some(true) && !next.allowed
          && next.phase == if act.Finish? then AfterExecution(id, act.outcome) else wk.phase)
  {
  }

  /** A worker that may not go on claims nothing any more. */
  lemma GonePhase(s: Store, clock: real, w: WorkerId, wk: Worker, act: Act, id: RunId)
    requires RunStore.Valid(s) && Possible(s, clock, wk, act)
    requires GoneBy(wk.phase, id) && !wk.allowed
    ensures !act.Claim? && !act.Finish?
    ensures
      var next := WorkerStep(s, clock, w, wk, act).1;
      next.phase.Killed? || (GoneBy(next.phase, id) && !next.allowed)
  {
  }

  /** The finalizing call after a shutdown. */
  lemma HaltingFinalize(s: Store, wk: Worker, id: RunId, outcome: ExecutionOutcome)
    requires s.runs.Keys == s.log.Keys && id in s.runs && s.runs[id].status == StatusCode.Running
    requires wk.phase == AfterExecution(id, outcome) && wk.ctx == Some(true) && !wk.allowed
    ensures id in FinalizeStep(s, wk).0.runs && FinalizeStep(s, wk).0.runs[id].status == EndOf(outcome)
    ensures FinalizeStep(s, wk).1.phase == Leaving(id, false) && !FinalizeStep(s, wk).1.allowed
  {
    FinalizeRunning(s, wk, id);
  }

  // ----- one step

  /** A run without intent that its worker is busy with is running. */
  lemma BusyRuns(runs: map<RunId, Run>, w: WorkerId, wk: Worker, id: RunId)
    requires KeptAt(runs, w, wk) && Busy(wk.phase) == Some(id)
    ensures id in runs && (runs[id].cancelRequested || runs[id].status == StatusCode.Running)
  {
  }

  lemma StepKeepsStarted(s: System, a: Action, id: RunId)
    requires Enabled(s, a) && !a.DeprecatedCancel? && id in s.store.runs && Started(s.store.runs[id])
    ensures Started(Next(s, a).store.runs[id])
    ensures Intended(s.store.runs[id]) ==> Intended(Next(s, a).store.runs[id])
  {
    StepOnward(s, a);
  }

  lemma KilledStays(s: System, a: Action, w: WorkerId)
    requires Enabled(s, a) && w in s.workers && s.workers[w].phase.Killed?
    ensures Next(s, a).workers[w].phase.Killed?
  {
  }

  /** The run is still to be ended by its worker. */
  predicate Pending(r: Run, wk: Worker, id: RunId, past: Option<ExecutionOutcome>) {
    && !wk.allowed && wk.ctx == Some(true) && r.status == StatusCode.Running
    && wk.phase == (if past.None? then Executing(id) else AfterExecution(id, past.value))
  }

  lemma PendingOwnStep(
    s: Store, clock: real, w: WorkerId, wk: Worker, act: Act, id: RunId, past: Option<ExecutionOutcome>,
    runs': map<RunId, Run>, wk': Worker)
    requires RunStore.Valid(s) && Possible(s, clock, wk, act) && !act.Finalize? && id in s.runs
    requires Pending(s.runs[id], wk, id, past) && wk' == WorkerStep(s, clock, w, wk, act).1
    requires KeptAt(runs', w, wk') && id in runs'
    ensures wk'.phase.Killed? || runs'[id].cancelRequested ||
            Pending(runs'[id], wk', id, OutcomeAfter(past, Work(w, act), w))
  {
    OwnPhase(s, clock, w, wk, act, id);
    if !wk'.phase.Killed? {
      BusyRuns(runs', w, wk', id);
    }
  }

  lemma PendingFinalize(s: System, a: Action, id: RunId, past: Option<ExecutionOutcome>)
    requires Enabled(s, a) && a.Work? && a.act.Finalize? && id in s.store.runs
    requires Pending(s.store.runs[id], s.workers[a.w], id, past)
    ensures past.Some? && !Next(s, a).workers[a.w].allowed
    ensures GoneBy(Next(s, a).workers[a.w].phase, id) && Next(s, a).store.runs[id].status == EndOf(past.value)
  {
    HaltingFinalize(s.store, s.workers[a.w], id, past.value);
    OwnStep(s, a);
  }

  lemma PendingOtherStep(
    r: Run, runs': map<RunId, Run>, w: WorkerId, wk: Worker, id: RunId, past: Option<ExecutionOutcome>)
    requires Pending(r, wk, id, past) && KeptAt(runs', w, wk) && id in runs'
    ensures runs'[id].cancelRequested || Pending(runs'[id], wk, id, past)
  {
    BusyRuns(runs', w, wk, id);
  }

  lemma EndedStep(s: System, a: Action, w: WorkerId, id: RunId, outcome: ExecutionOutcome)
    requires Enabled(s, a) && w in s.workers && id in s.store.runs && s.store.runs[id].status == EndOf(outcome)
    requires GoneBy(s.workers[w].phase, id) && !s.workers[w].allowed
    ensures OutcomeAfter(None, a, w).None?
    ensures Next(s, a).store.runs[id] == s.store.runs[id]
    ensures
      var wk := Next(s, a).workers[w];
      wk.phase.Killed? || (GoneBy(wk.phase, id) && !wk.allowed)
  {
    StepAbsorbed(s, a, id);
    if a.Work? && a.w == w {
      GonePhase(s.store, s.clock, w, s.workers[w], a.act, id);
      OwnStep(s, a);
    } else {
      OtherStep(s, a, w);
    }
  }

  lemma StepHalts(s: System, a: Action, w: WorkerId, id: RunId, past: Option<ExecutionOutcome>)
    requires Enabled(s, a) && !a.DeprecatedCancel? && HaltingAt(s, w, id, past)
    requires KeptAt(Next(s, a).store.runs, w, Next(s, a).workers[w])
    ensures HaltingAt(Next(s, a), w, id, OutcomeAfter(past, a, w))
  {
    StepKeepsStarted(s, a, id);
    var r, wk := s.store.runs[id], s.workers[w];
    if Intended(r) {
    } else if wk.phase.Killed? {
      KilledStays(s, a, w);
    } else if Pending(r, wk, id, past) {
      if !(a.Work? && a.w == w) {
        OtherStep(s, a, w);
        PendingOtherStep(r, Next(s, a).store.runs, w, wk, id, past);
      } else if a.act.Finalize? {
        PendingFinalize(s, a, id, past);
      } else {
        OwnStep(s, a);
        PendingOwnStep(s.store, s.clock, w, wk, a.act, id, past, Next(s, a).store.runs, Next(s, a).workers[w]);
      }
    } else {
      EndedStep(s, a, w, id, past.value);
    }
  }

  // ----- whole executions

  /** What timely executions without the deprecated cancellation keep. */
  ghost predicate Orderly(s: System) {
    AllSecured(s) && Exclusive(s) && AllKept(s)
  }

  lemma StepAllKept(s: System, a: Action)
    requires Enabled(s, a) && Timely(s, a) && !a.DeprecatedCancel?
    requires Orderly(s)
    ensures Orderly(Next(s, a))
  {
    StepKeepsExclusive(s, a);
    forall v | v in s.workers
      ensures KeptAt(Next(s, a).store.runs, v, Next(s, a).workers[v])
    {
      StepKept(s, a, v);
    }
  }

  lemma StepHaltsToo(s: System, a: Action, w: WorkerId, id: RunId, past: Option<ExecutionOutcome>)
    requires Enabled(s, a) && Timely(s, a) && !a.DeprecatedCancel?
    requires Orderly(s) && HaltingAt(s, w, id, past)
    ensures Orderly(Next(s, a))
    ensures HaltingAt(Next(s, a), w, id, OutcomeAfter(past, a, w))
  {
    StepAllKept(s, a);
    StepHalts(s, a, w, id, past);
  }

  lemma {:induction false} ExecutionHalts(
    s: System, actions: seq<Action>, w: WorkerId, id: RunId, past: Option<ExecutionOutcome>)
    requires Executes(s, actions) && TimelyThroughout(s, actions) && WithoutDeprecated(actions)
    requires Orderly(s) && HaltingAt(s, w, id, past)
    ensures HaltingAt(After(s, actions), w, id, if past.Some? then past else OutcomeIn(actions, w))
    decreases |actions|
  {
    if actions != [] {
      var a := actions[0];
      assert a in actions;
      StepHaltsToo(s, a, w, id, past);
      ExecutionHalts(Next(s, a), actions[1..], w, id, OutcomeAfter(past, a, w));
    }
  }

  lemma ShutdownHalts(s: System, w: WorkerId, id: RunId)
    requires Enabled(s, Work(w, Shutdown)) && s.workers[w].phase == Executing(id) && s.workers[w].ctx.Some?
    requires KeptAt(s.store.runs, w, s.workers[w]) && id in s.store.runs && Started(s.store.runs[id])
    ensures HaltingAt(Next(s, Work(w, Shutdown)), w, id, None)
  {
    BusyRuns(s.store.runs, w, s.workers[w], id);
    OwnStep(s, Work(w, Shutdown));
  }

  // ----- executing workers have a context

  predicate HasContext(wk: Worker) {
    wk.phase.Executing? || InFinalization(wk.phase) ==> wk.ctx.Some?
  }

  lemma FinalizeKeepsContext(s: Store, wk: Worker)
    requires s.runs.Keys == s.log.Keys && InFinalization(wk.phase) && HasContext(wk)
    ensures HasContext(FinalizeStep(s, wk).1)
  {
  }

  lemma WorkKeepsContext(s: Store, clock: real, w: WorkerId, wk: Worker, act: Act)
    requires RunStore.Valid(s) && Possible(s, clock, wk, act) && HasContext(wk) && !act.Claim?
    ensures HasContext(WorkerStep(s, clock, w, wk, act).1)
  {
    if act.Finalize? {
      FinalizeKeepsContext(s, wk);
    }
  }

  lemma StepKeepsContext(s: System, a: Action, w: WorkerId)
    requires Enabled(s, a) && w in s.workers && HasContext(s.workers[w])
    ensures HasContext(Next(s, a).workers[w])
  {
    if !(a.Work? && a.w == w) {
      OtherStep(s, a, w);
    } else if a.act.Claim? {
      ClaimNextWorkers(s, a);
    } else {
      WorkKeepsContext(s.store, s.clock, w, s.workers[w], a.act);
      OwnStep(s, a);
    }
  }

  lemma {:induction false} ExecutionKeepsContext(s: System, actions: seq<Action>, w: WorkerId)
    requires Executes(s, actions) && w in s.workers && HasContext(s.workers[w])
    ensures w in After(s, actions).workers && HasContext(After(s, actions).workers[w])
    decreases |actions|
  {
    if actions != [] {
      StepKeepsContext(s, actions[0], w);
      ExecutionKeepsContext(Next(s, actions[0]), actions[1..], w);
    }
  }

  lemma {:induction false} SameWorkers(s: System, actions: seq<Action>)
    requires Executes(s, actions)
    ensures After(s, actions).workers.Keys == s.workers.Keys
    decreases |actions|
  {
    if actions != [] {
      SameWorkers(Next(s, actions[0]), actions[1..]);
    }
  }

  // ----- the theorem

  lemma HaltsFromShutdown(s: System, a: Action, w: WorkerId, id: RunId)
    requires Enabled(s, a) && Timely(s, a) && a == Work(w, Shutdown)
    requires Orderly(s)
    requires s.workers[w].phase == Executing(id) && s.workers[w].ctx.Some?
    ensures HaltingAt(Next(s, a), w, id, None)
    ensures Orderly(Next(s, a))
  {
    assert KeptAt(s.store.runs, w, s.workers[w]);
    ShutdownHalts(s, w, id);
    StepAllKept(s, a);
  }

  lemma ExecutionHaltsFrom(s: System, rest: seq<Action>, w: WorkerId, id: RunId)
    requires rest != [] && rest[0] == Work(w, Shutdown)
    requires Executes(s, rest) && TimelyThroughout(s, rest) && WithoutDeprecated(rest)
    requires Orderly(s)
    requires w in s.workers && s.workers[w].phase == Executing(id) && s.workers[w].ctx.Some?
    ensures HaltingAt(After(s, rest), w, id, OutcomeIn(rest, w))
  {
    HaltsFromShutdown(s, rest[0], w, id);
    ExecutionHalts(Next(s, rest[0]), rest[1..], w, id, None);
  }

  /**
   * The run is still with its worker until the executor has ended and the finalizing call is made,
   * and then ended as the executor did.
   */
  predicate EndsAsExecuted(r: Run, p: Phase, id: RunId, past: Option<ExecutionOutcome>) {
    match past
    case None => p == Executing(id) && r.status == StatusCode.Running
    case Some(outcome) =>
      || (p == AfterExecution(id, outcome) && r.status == StatusCode.Running)
      || (&& GoneBy(p, id)
          && (r.status == StatusCode.Cancelled <==> outcome.Normal?)
          && (r.status == Failed <==> outcome.Raised?))
  }

  lemma HaltingMeans(r: Run, wk: Worker, id: RunId, past: Option<ExecutionOutcome>)
    requires Halting(r, wk, id, past) && !r.cancelRequested && !wk.phase.Killed?
    ensures EndsAsExecuted(r, wk.phase, id, past)
  {
  }

  /**
   * A shutdown in the middle of an execution ends the run for good, against the documentation:
   * whatever else happens in time, as long as nobody asks for cancellation and the worker is not
   * killed, the run stays RUNNING only until the executor has ended and the finalizing call is made,
   * and is then CANCELLED if the executor has returned normally and FAILED if it has raised.
   */
  lemma ShutdownIsFinal(
    s0: System, before: seq<Action>, s: System, rest: seq<Action>, s': System, w: WorkerId, id: RunId)
    requires Initial(s0) && Executes(s0, before) && TimelyThroughout(s0, before) && WithoutDeprecated(before)
    requires s == After(s0, before) && w in s.workers && s.workers[w].phase == Executing(id)
    requires Executes(s, rest) && TimelyThroughout(s, rest) && WithoutDeprecated(rest)
    requires rest != [] && rest[0] == Work(w, Shutdown) && s' == After(s, rest)
    ensures w in s'.workers && id in s'.store.runs
    ensures !s'.store.runs[id].cancelRequested && !s'.workers[w].phase.Killed? ==>
              EndsAsExecuted(s'.store.runs[id], s'.workers[w].phase, id, OutcomeIn(rest, w))
  {
    SameWorkers(s0, before);
    ExecutionKeepsContext(s0, before, w);
    TimelyIsKept(s0, before);
    ExecutionHaltsFrom(s, rest, w, id);
    if !s'.store.runs[id].cancelRequested && !s'.workers[w].phase.Killed? {
      HaltingMeans(s'.store.runs[id], s'.workers[w], id, OutcomeIn(rest, w));
    }
  }
}
