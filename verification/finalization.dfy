/** How `execute_run` ends, whatever the API and the heartbeat task do in between. */
module Finalization {
  import opened Wrappers
  import opened RunDomain
  import opened RunStore
  import opened WorkerMachine
  import opened Cluster
  import opened ClusterSteps
  import opened ClaimFacts
  import opened Exclusion

  // ----- every finalization comes to an end

  /** How many store calls `execute_run` can still make. */
  function CallsLeft(p: Phase): nat {
    match p
    case Returned(_) => 3
    case Cancelling(_) => 2
    case Succeeding(_) => 2
    case Failing(_, _) => 1
    case _ => 0
  }

  lemma FinalizationTerminates(s: Store, wk: Worker)
    requires s.runs.Keys == s.log.Keys && InFinalization(wk.phase)
    ensures CallsLeft(FinalizeStep(s, wk).1.phase) < CallsLeft(wk.phase)
    ensures InFinalization(FinalizeStep(s, wk).1.phase) || FinalizeStep(s, wk).1.phase.Leaving?
  {
  }

  /** On a running run every call succeeds, and the last one ends the run. */
  lemma FinalizeRunning(s: Store, wk: Worker, id: RunId)
    requires s.runs.Keys == s.log.Keys && id in s.runs && s.runs[id].status == StatusCode.Running
    requires InFinalization(wk.phase) && wk.phase.id == id
    ensures id in FinalizeStep(s, wk).0.runs
    ensures
      var s', wk' := FinalizeStep(s, wk).0, FinalizeStep(s, wk).1;
      if wk.phase.Returned? && wk.ctx != Some(true) then
        s' == s && wk' == wk.(phase := if s.runs[id].cancelRequested then Cancelling(id) else Succeeding(id))
      else
        && wk'.phase == Leaving(id, false)
        && s'.runs[id].status == (match wk.phase
                                  case Succeeding(_) => Succeeded
                                  case Failing(_, _) => Failed
                                  case _ => StatusCode.Cancelled)
  {
  }

  // ----- one worker

  ghost predicate Lone(s: System, w: WorkerId) {
    s.workers.Keys == {w}
  }

  /** The worker's run is running and its own until `execute_run` has ended it. */
  predicate OnTrack(runs: map<RunId, Run>, w: WorkerId, p: Phase) {
    && (Busy(p).Some? ==>
          && Busy(p).value in runs
          && runs[Busy(p).value].status == StatusCode.Running
          && runs[Busy(p).value].claimedWorker == Some(w))
    && (p.Leaving? ==> !p.crashed && p.id in runs && Terminal(runs[p.id].status))
    && !p.Crashed?
  }

  /** Another party's change, or a heartbeat, keeps a run running or over. */
  lemma OutsideChange(r: Run, c: Change)
    requires Permitted(r, c) && (c.Enqueue? || c.AskCancel? || c.Renew? || c.NoteLost? || c.Note?)
    ensures r.status == StatusCode.Running ==>
          RunAfter(r, c).status == r.status && RunAfter(r, c).claimedWorker == r.claimedWorker
    ensures Terminal(r.status) ==> RunAfter(r, c) == r
  {
  }

  predicate Outside(touch: Touch) {
    touch.Touch? ==>
      var c := touch.change;
      c.Enqueue? || c.AskCancel? || c.Renew? || c.NoteLost? || c.Note?
  }

  lemma OutsideKeepsTrack(s: Store, touch: Touch, w: WorkerId, p: Phase)
    requires s.runs.Keys == s.log.Keys && OnTrack(s.runs, w, p)
    requires touch.Touch? ==> touch.id in s.runs && Permitted(s.runs[touch.id], touch.change) && Outside(touch)
    ensures OnTrack(ApplyTouch(s, touch).runs, w, p)
  {
    if touch.Touch? {
      OutsideChange(s.runs[touch.id], touch.change);
    }
  }

  /** Outside of claims and finalization a worker's own phase keeps the track. */
  lemma QuietPhase(s: Store, clock: real, w: WorkerId, wk: Worker, act: Act, runs: map<RunId, Run>)
    requires RunStore.Valid(s) && Possible(s, clock, wk, act) && !act.Claim? && !act.Finalize?
    requires OnTrack(runs, w, wk.phase)
    ensures OnTrack(runs, w, WorkerStep(s, clock, w, wk, act).1.phase)
    ensures Outside(WorkTouch(s, w, wk, act))
  {
  }

  lemma ClaimOnTrack(s: System, a: Action)
    requires Enabled(s, a) && IsClaim(a)
    ensures OnTrack(Next(s, a).store.runs, a.w, Next(s, a).workers[a.w].phase)
  {
    ClaimNextWorkers(s, a);
    var busy := Busy(Next(s, a).workers[a.w].phase);
    if busy.Some? {
      ClaimerBusy(s, a, busy.value);
      HandoutNeedsWaiting(s.store, a.w, a.act.t, busy.value);
      StepEffect(s, a, busy.value);
    }
  }

  lemma FinalizeOnTrack(s: Store, w: WorkerId, wk: Worker)
    requires s.runs.Keys == s.log.Keys && InFinalization(wk.phase) && OnTrack(s.runs, w, wk.phase)
    ensures OnTrack(FinalizeStep(s, wk).0.runs, w, FinalizeStep(s, wk).1.phase)
  {
    FinalizeRunning(s, wk, wk.phase.id);
  }

  lemma QuietStep(s: System, a: Action, w: WorkerId)
    requires Enabled(s, a) && w in s.workers && OnTrack(s.store.runs, w, s.workers[w].phase)
    requires !a.CreateRun? && !a.DeprecatedCancel?
    requires a.Work? ==> a.w == w && !a.act.Claim? && !a.act.Finalize?
    ensures OnTrack(Next(s, a).store.runs, w, Next(s, a).workers[w].phase)
  {
    StepTouches(s, a);
    TouchIsTimed(s, a);
    if a.Work? {
      QuietPhase(s.store, s.clock, w, s.workers[w], a.act, s.store.runs);
    }
    OutsideKeepsTrack(s.store, TouchOf(s, a), w, Next(s, a).workers[w].phase);
  }

  lemma LoneStep(s: System, a: Action, w: WorkerId)
    requires Enabled(s, a) && Lone(s, w) && OnTrack(s.store.runs, w, s.workers[w].phase)
    requires !a.DeprecatedCancel?
    ensures Lone(Next(s, a), w) && OnTrack(Next(s, a).store.runs, w, Next(s, a).workers[w].phase)
  {
    if IsClaim(a) {
      ClaimOnTrack(s, a);
    } else if a.Work? && a.act.Finalize? {
      FinalizeOnTrack(s.store, w, s.workers[w]);
    } else if !a.CreateRun? {
      QuietStep(s, a, w);
    }
  }

  lemma {:induction false} LoneExecution(s: System, actions: seq<Action>, w: WorkerId)
    requires Executes(s, actions) && WithoutDeprecated(actions)
    requires Lone(s, w) && OnTrack(s.store.runs, w, s.workers[w].phase)
    ensures Lone(After(s, actions), w) && OnTrack(After(s, actions).store.runs, w, After(s, actions).workers[w].phase)
    decreases |actions|
  {
    if actions != [] {
      assert actions[0] in actions;
      LoneStep(s, actions[0], w);
      LoneExecution(Next(s, actions[0]), actions[1..], w);
    }
  }

  /**
   * With one worker, whatever is created, enqueued or asked to be cancelled at any point, no
   * exception leaves `execute_run`, and when it is over the run is too.
   */
  lemma LoneWorkerNeverCrashes(s0: System, actions: seq<Action>, w: WorkerId)
    requires Initial(s0) && Lone(s0, w) && Executes(s0, actions) && WithoutDeprecated(actions)
    ensures w in After(s0, actions).workers
    ensures
      var s := After(s0, actions);
      var p := s.workers[w].phase;
      && !p.Crashed?
      && (p.Leaving? ==> !p.crashed && p.id in s.store.runs && Terminal(s.store.runs[p.id].status))
      && (Busy(p).Some? ==> Busy(p).value in s.store.runs && s.store.runs[Busy(p).value].status == StatusCode.Running)
  {
    LoneExecution(s0, actions, w);
  }

  // ----- intent before the read

  /** Intent is recorded and the read is still to come or has seen it; or the run is cancelled. */
  predicate BoundToCancel(runs: map<RunId, Run>, id: RunId, p: Phase) {
    && id in runs
    && (|| runs[id].status == StatusCode.Cancelled
        || (&& runs[id].status == StatusCode.Running && runs[id].cancelRequested
            && (p == Returned(id) || p == Cancelling(id) || p.Killed?)))
  }

  lemma OutsideKeepsBound(s: Store, touch: Touch, id: RunId, p: Phase)
    requires s.runs.Keys == s.log.Keys && BoundToCancel(s.runs, id, p)
    requires touch.Touch? ==> touch.id in s.runs && Permitted(s.runs[touch.id], touch.change) && Outside(touch)
    ensures BoundToCancel(ApplyTouch(s, touch).runs, id, p)
  {
  }

  lemma QuietPhaseBound(s: Store, clock: real, w: WorkerId, wk: Worker, act: Act, id: RunId)
    requires RunStore.Valid(s) && Possible(s, clock, wk, act) && !act.Claim? && !act.Finalize?
    requires OnTrack(s.runs, w, wk.phase) && BoundToCancel(s.runs, id, wk.phase)
    ensures BoundToCancel(s.runs, id, WorkerStep(s, clock, w, wk, act).1.phase)
  {
  }

  lemma QuietKeepsBound(s: System, a: Action, w: WorkerId, id: RunId)
    requires Enabled(s, a) && w in s.workers && BoundToCancel(s.store.runs, id, s.workers[w].phase)
    requires !a.CreateRun? && !a.DeprecatedCancel?
    requires OnTrack(s.store.runs, w, s.workers[w].phase)
    requires a.Work? ==> a.w == w && !a.act.Claim? && !a.act.Finalize?
    ensures BoundToCancel(Next(s, a).store.runs, id, Next(s, a).workers[w].phase)
  {
    StepTouches(s, a);
    TouchIsTimed(s, a);
    if a.Work? {
      QuietPhase(s.store, s.clock, w, s.workers[w], a.act, s.store.runs);
      QuietPhaseBound(s.store, s.clock, w, s.workers[w], a.act, id);
    }
    OutsideKeepsBound(s.store, TouchOf(s, a), id, Next(s, a).workers[w].phase);
  }

  lemma FinalizeKeepsBound(s: Store, w: WorkerId, wk: Worker, id: RunId)
    requires s.runs.Keys == s.log.Keys && InFinalization(wk.phase) && OnTrack(s.runs, w, wk.phase)
    requires BoundToCancel(s.runs, id, wk.phase)
    ensures BoundToCancel(FinalizeStep(s, wk).0.runs, id, FinalizeStep(s, wk).1.phase)
  {
    if wk.phase.id == id {
      FinalizeRunning(s, wk, id);
    } else {
      FinalizeTouches(s, w, wk);
    }
  }

  lemma ClaimKeepsBound(s: System, a: Action, w: WorkerId, id: RunId)
    requires Enabled(s, a) && IsClaim(a) && a.w == w && BoundToCancel(s.store.runs, id, s.workers[w].phase)
    ensures Next(s, a).store.runs[id].status == StatusCode.Cancelled
  {
    assert s.workers[w].phase.Waiting?;
    assert s.store.runs[id].status == StatusCode.Cancelled;
    StepEffect(s, a, id);
  }

  lemma LoneStepKeepsBound(s: System, a: Action, w: WorkerId, id: RunId)
    requires Enabled(s, a) && Lone(s, w) && OnTrack(s.store.runs, w, s.workers[w].phase)
    requires BoundToCancel(s.store.runs, id, s.workers[w].phase) && !a.DeprecatedCancel?
    ensures BoundToCancel(Next(s, a).store.runs, id, Next(s, a).workers[w].phase)
  {
    if IsClaim(a) {
      ClaimKeepsBound(s, a, w, id);
    } else if a.Work? && a.act.Finalize? {
      FinalizeKeepsBound(s.store, w, s.workers[w], id);
    } else if !a.CreateRun? {
      QuietKeepsBound(s, a, w, id);
    }
  }

  lemma {:induction false} LoneExecutionKeepsBound(s: System, actions: seq<Action>, w: WorkerId, id: RunId)
    requires Executes(s, actions) && WithoutDeprecated(actions)
    requires Lone(s, w) && OnTrack(s.store.runs, w, s.workers[w].phase)
    requires BoundToCancel(s.store.runs, id, s.workers[w].phase)
    ensures Lone(After(s, actions), w)
          && BoundToCancel(After(s, actions).store.runs, id, After(s, actions).workers[w].phase)
    decreases |actions|
  {
    if actions != [] {
      assert actions[0] in actions;
      LoneStep(s, actions[0], w);
      LoneStepKeepsBound(s, actions[0], w, id);
      LoneExecutionKeepsBound(Next(s, actions[0]), actions[1..], w, id);
    }
  }

  /**
   * If the executor has returned and intent is recorded before `execute_run` reads the status, the
   * run ends CANCELLED: it is never SUCCEEDED or FAILED, and it is CANCELLED once the worker is done.
   */
  lemma IntentBeforeReadCancels(s0: System, before: seq<Action>, later: seq<Action>, w: WorkerId, id: RunId)
    requires Initial(s0) && Lone(s0, w)
    requires Executes(s0, before) && WithoutDeprecated(before)
    requires w in After(s0, before).workers && After(s0, before).workers[w].phase == Returned(id)
    requires id in After(s0, before).store.runs && After(s0, before).store.runs[id].cancelRequested
    requires Executes(After(s0, before), later) && WithoutDeprecated(later)
    ensures
      var s := After(After(s0, before), later);
      && id in s.store.runs && w in s.workers
      && s.store.runs[id].status in {StatusCode.Running, StatusCode.Cancelled}
      && (s.workers[w].phase !in {Returned(id), Cancelling(id), Killed} ==>
            s.store.runs[id].status == StatusCode.Cancelled)
  {
    LoneExecution(s0, before, w);
    LoneExecutionKeepsBound(After(s0, before), later, w, id);
  }
}
