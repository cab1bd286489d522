/** Why runs are cancelled: because someone asked, or because a worker was shut down meanwhile. */
module Causality {
  import opened Wrappers
  import opened RunDomain
  import opened RunStore
  import opened RunLife
  import opened WorkerMachine
  import opened Cluster
  import opened ClusterSteps
  import opened ClaimFacts
  import opened Exclusion
  import opened Finalization
  import opened Executions

  /** Intent on a run that has been enqueued, which nothing but the deprecated call takes back. */
  predicate Intended(r: Run) {
    r.cancelRequested && r.status != StatusCode.Created
  }

  predicate Started(r: Run) {
    r.status != StatusCode.Created && Visible(r.status)
  }

  lemma ChangeKeepsIntended(r: Run, c: Change)
    requires Permitted(r, c) && Started(r) && !c.MarkCancel?
    ensures Started(RunAfter(r, c)) && (Intended(r) ==> Intended(RunAfter(r, c)))
  {
  }

  /** The reason a worker has for cancelling the run it executes. */
  predicate Reason(r: Run, wk: Worker, id: RunId) {
    Intended(r) || id in wk.interrupted
  }

  /** Its context is cancelled, or it is about to cancel, for a reason. */
  predicate ReasonedAt(runs: map<RunId, Run>, wk: Worker) {
    && (Busy(wk.phase).Some? ==> Busy(wk.phase).value in runs && Started(runs[Busy(wk.phase).value]))
    && (wk.ctx.Some? ==> Busy(wk.phase).Some? && !wk.phase.Holding?)
    && (wk.ctx == Some(true) ==> Reason(runs[Busy(wk.phase).value], wk, Busy(wk.phase).value))
    && (wk.phase.Cancelling? ==> Reason(runs[wk.phase.id], wk, wk.phase.id))
  }

  ghost predicate Interrupted(workers: map<WorkerId, Worker>, id: RunId) {
    exists w :: w in workers && id in workers[w].interrupted
  }

  predicate Unreasoned(r: Run) {
    r.status == StatusCode.Cancelled && !r.cancelRequested
  }

  /** Every worker has its reasons, and every cancelled run too. */
  ghost predicate Caused(s: System) {
    && (forall w | w in s.workers :: ReasonedAt(s.store.runs, s.workers[w]))
    && (forall id | id in s.store.runs && Unreasoned(s.store.runs[id]) :: Interrupted(s.workers, id))
  }

  // ----- workers keep their reasons

  /** The table moves on without resetting any record. */
  ghost predicate Onward(runs: map<RunId, Run>, runs': map<RunId, Run>) {
    forall id | id in runs && Started(runs[id]) ::
      id in runs' && Started(runs'[id]) && (Intended(runs[id]) ==> Intended(runs'[id]))
  }

  lemma StepOnward(s: System, a: Action)
    requires Enabled(s, a) && !a.DeprecatedCancel?
    ensures Onward(s.store.runs, Next(s, a).store.runs)
  {
    forall id | id in s.store.runs && Started(s.store.runs[id])
      ensures id in Next(s, a).store.runs && Started(Next(s, a).store.runs[id])
      ensures Intended(s.store.runs[id]) ==> Intended(Next(s, a).store.runs[id])
    {
      StepEntry(s, a, id);
      StepUnmarked(s, a, id);
      ChangesKeepIntended(LifeOf(s, id), ChangesOf(s, a, id));
    }
  }

  lemma {:induction false} ChangesKeepIntended(l: Life, cs: seq<Change>)
    requires PermittedAll(l.entry.run, cs) && Unmarked(cs) && Started(l.entry.run)
    ensures Started(LifeAfterAll(l, cs).entry.run)
    ensures Intended(l.entry.run) ==> Intended(LifeAfterAll(l, cs).entry.run)
    decreases |cs|
  {
    if cs != [] {
      assert cs[0] in cs;
      ChangeKeepsIntended(l.entry.run, cs[0]);
      ChangesKeepIntended(LifeAfter(l, cs[0]), cs[1..]);
    }
  }

  lemma OnwardKeepsReasons(runs: map<RunId, Run>, runs': map<RunId, Run>, wk: Worker)
    requires Onward(runs, runs') && ReasonedAt(runs, wk)
    ensures ReasonedAt(runs', wk)
  {
  }

  lemma QuietReasoned(s: Store, clock: real, w: WorkerId, wk: Worker, act: Act)
    requires RunStore.Valid(s) && Possible(s, clock, wk, act) && !act.Claim? && !act.Finalize? && !act.Beat?
    requires ReasonedAt(s.runs, wk)
    ensures ReasonedAt(s.runs, WorkerStep(s, clock, w, wk, act).1)
  {
  }

  /** The heartbeat cancels the context only on recorded intent. */
  lemma BeatReasoned(s: Store, w: WorkerId, wk: Worker, now: real)
    requires s.runs.Keys == s.log.Keys && Scope(wk.phase).Some? && ReasonedAt(s.runs, wk)
    ensures ReasonedAt(s.runs, BeatStep(s, w, wk, now).1)
  {
  }

  lemma FinalizeReasoned(s: Store, wk: Worker)
    requires s.runs.Keys == s.log.Keys && InFinalization(wk.phase) && ReasonedAt(s.runs, wk)
    ensures ReasonedAt(s.runs, FinalizeStep(s, wk).1)
  {
  }

  lemma ClaimerShape(s: System, a: Action)
    requires Enabled(s, a) && IsClaim(a)
    ensures s.workers[a.w].phase.Waiting?
    ensures Next(s, a).workers[a.w].ctx == s.workers[a.w].ctx
    ensures Next(s, a).workers[a.w].interrupted == s.workers[a.w].interrupted
    ensures Next(s, a).workers[a.w].phase.Holding? || Next(s, a).workers[a.w].phase.Looping?
  {
  }

  lemma ClaimerReasoned(runs: map<RunId, Run>, w: WorkerId, wk: Worker)
    requires OnTrack(runs, w, wk.phase) && wk.ctx.None? && (wk.phase.Holding? || wk.phase.Looping?)
    ensures ReasonedAt(runs, wk)
  {
  }

  lemma ClaimReasoned(s: System, a: Action)
    requires Enabled(s, a) && IsClaim(a) && ReasonedAt(s.store.runs, s.workers[a.w])
    ensures ReasonedAt(Next(s, a).store.runs, Next(s, a).workers[a.w])
  {
    ClaimOnTrack(s, a);
    ClaimerShape(s, a);
    ClaimerReasoned(Next(s, a).store.runs, a.w, Next(s, a).workers[a.w]);
  }

  lemma WorkerReasoned(s: System, a: Action, v: WorkerId)
    requires Enabled(s, a) && !a.DeprecatedCancel? && v in s.workers && ReasonedAt(s.store.runs, s.workers[v])
    ensures ReasonedAt(Next(s, a).store.runs, Next(s, a).workers[v])
  {
    StepOnward(s, a);
    if a.Work? && a.w == v {
      var wk := s.workers[v];
      match a.act
      case Claim(_) => ClaimReasoned(s, a);
      case Finalize => FinalizeReasoned(s.store, wk);
      case Beat(now) => BeatReasoned(s.store, v, wk, now);
      case _ => QuietReasoned(s.store, s.clock, v, wk, a.act);
    }
    if !IsClaim(a) || a.w != v {
      OnwardKeepsReasons(s.store.runs, Next(s, a).store.runs, Next(s, a).workers[v]);
    }
  }

  // ----- cancelled runs keep their causes

  /** Only a shutdown during an execution adds to what a worker has interrupted. */
  lemma WorkInterrupts(s: Store, clock: real, w: WorkerId, wk: Worker, act: Act)
    requires RunStore.Valid(s) && Possible(s, clock, wk, act) && !act.Claim?
    ensures
      WorkerStep(s, clock, w, wk, act).1.interrupted ==
        if act.Shutdown? && wk.ctx.Some? && Scope(wk.phase).Some? then wk.interrupted + {Scope(wk.phase).value}
        else wk.interrupted
  {
  }

  lemma StepInterrupts(s: System, a: Action, w: WorkerId)
    requires Enabled(s, a) && w in s.workers
    ensures
      var wk := s.workers[w];
      Next(s, a).workers[w].interrupted ==
        if a == Work(w, Shutdown) && wk.ctx.Some? && Scope(wk.phase).Some? then wk.interrupted + {Scope(wk.phase).value}
        else wk.interrupted
  {
    if a.Work? && a.w == w {
      if IsClaim(a) {
        ClaimerShape(s, a);
      } else {
        WorkInterrupts(s.store, s.clock, w, s.workers[w], a.act);
      }
    }
  }

  /** A run enters `interrupted` only when its worker is shut down while executing it. */
  lemma InterruptedByShutdown(s: System, a: Action, w: WorkerId, id: RunId)
    requires Enabled(s, a) && w in s.workers && ReasonedAt(s.store.runs, s.workers[w])
    requires id in Next(s, a).workers[w].interrupted && id !in s.workers[w].interrupted
    ensures a == Work(w, Shutdown) && Busy(s.workers[w].phase) == Some(id) && !s.workers[w].phase.Holding?
  {
    StepInterrupts(s, a, w);
  }

  lemma InterruptionsStay(s: System, a: Action, id: RunId)
    requires Enabled(s, a) && Interrupted(s.workers, id)
    ensures Interrupted(Next(s, a).workers, id)
  {
    var w :| w in s.workers && id in s.workers[w].interrupted;
    StepInterrupts(s, a, w);
  }

  lemma FinalizeCancels(s: Store, w: WorkerId, wk: Worker)
    requires InFinalization(wk.phase) && ReasonedAt(s.runs, wk)
    ensures
      var touch := WorkTouch(s, w, wk, Finalize);
      touch.Touch? && touch.change.Cancel? ==> touch.id in s.runs && Reason(s.runs[touch.id], wk, touch.id)
  {
  }

  lemma TouchCancels(s: System, a: Action)
    requires Enabled(s, a) && (a.Work? ==> ReasonedAt(s.store.runs, s.workers[a.w]))
    ensures
      var touch := TouchOf(s, a);
      touch.Touch? && touch.change.Cancel? ==>
        && a.Work? && touch.id in s.store.runs
        && Reason(s.store.runs[touch.id], s.workers[a.w], touch.id)
  {
    if a.Work? && a.act.Finalize? {
      FinalizeCancels(s.store, a.w, s.workers[a.w]);
    }
  }

  /** A change that leaves a run cancelled without intent is a cancellation of a run without intent. */
  lemma UnreasonedBy(r: Run, c: Change)
    requires Permitted(r, c) && !c.MarkCancel? && Unreasoned(RunAfter(r, c))
    ensures Unreasoned(r) || (c.Cancel? && !r.cancelRequested)
  {
  }

  lemma EffectReasoned(r: Run, r': Run, w: WorkerId, now: real, grant: real, taken: bool)
    requires Effect(r, r', w, now, grant, taken) && Unreasoned(r')
    ensures Unreasoned(r)
  {
  }

  lemma ClaimUnreasoned(s: System, a: Action, id: RunId)
    requires Enabled(s, a) && IsClaim(a) && id in s.store.runs && Unreasoned(Next(s, a).store.runs[id])
    ensures Unreasoned(s.store.runs[id])
  {
    StepEffect(s, a, id);
    EffectReasoned(s.store.runs[id], Next(s, a).store.runs[id],
                   a.w, a.act.t.checks[id], a.act.t.grant, HandsOut(s, a, id));
  }

  lemma TouchUnreasoned(s: Store, touch: Touch, id: RunId)
    requires s.runs.Keys == s.log.Keys && id in s.runs
    requires touch.Touch? ==> touch.id in s.runs && Permitted(s.runs[touch.id], touch.change)
    requires touch.Touch? ==> !touch.change.MarkCancel?
    requires Unreasoned(ApplyTouch(s, touch).runs[id])
    ensures Unreasoned(s.runs[id])
          || (touch.Touch? && touch.id == id && touch.change.Cancel? && !s.runs[id].cancelRequested)
  {
    if touch.Touch? && touch.id == id {
      UnreasonedBy(s.runs[id], touch.change);
    }
  }

  lemma NewlyUnreasoned(s: System, a: Action, id: RunId)
    requires Enabled(s, a) && !a.DeprecatedCancel? && Caused(s)
    requires id in s.store.runs && Unreasoned(Next(s, a).store.runs[id])
    ensures Unreasoned(s.store.runs[id]) || Interrupted(s.workers, id)
  {
    if IsClaim(a) {
      ClaimUnreasoned(s, a, id);
    } else if !a.CreateRun? {
      StepTouches(s, a);
      TouchIsTimed(s, a);
      TouchCancels(s, a);
      TouchUnreasoned(s.store, TouchOf(s, a), id);
    }
  }

  lemma RunCaused(s: System, a: Action, id: RunId)
    requires Enabled(s, a) && !a.DeprecatedCancel? && Caused(s)
    requires id in Next(s, a).store.runs && Unreasoned(Next(s, a).store.runs[id])
    ensures Interrupted(Next(s, a).workers, id)
  {
    StoreAfterValid(s, a);
    if id in s.store.runs {
      NewlyUnreasoned(s, a, id);
      InterruptionsStay(s, a, id);
    }
  }

  lemma StepCaused(s: System, a: Action)
    requires Enabled(s, a) && !a.DeprecatedCancel? && Caused(s)
    ensures Caused(Next(s, a))
  {
    forall v | v in s.workers
      ensures ReasonedAt(Next(s, a).store.runs, Next(s, a).workers[v])
    {
      WorkerReasoned(s, a, v);
    }
    forall id | id in Next(s, a).store.runs && Unreasoned(Next(s, a).store.runs[id])
      ensures Interrupted(Next(s, a).workers, id)
    {
      RunCaused(s, a, id);
    }
  }

  lemma {:induction false} ExecutionCaused(s: System, actions: seq<Action>)
    requires Executes(s, actions) && WithoutDeprecated(actions) && Caused(s)
    ensures Caused(After(s, actions))
    decreases |actions|
  {
    if actions != [] {
      assert actions[0] in actions;
      StepCaused(s, actions[0]);
      ExecutionCaused(Next(s, actions[0]), actions[1..]);
    }
  }

  /**
   * Every cancelled run carries intent, with the request logged before the cancellation, or some
   * worker was shut down while executing it.
   */
  lemma CancellationIsCaused(s0: System, actions: seq<Action>, id: RunId)
    requires Initial(s0) && Executes(s0, actions) && WithoutDeprecated(actions)
    requires id in After(s0, actions).store.runs
    requires After(s0, actions).store.runs[id].status == StatusCode.Cancelled
    ensures id in After(s0, actions).store.log
    ensures
      var s := After(s0, actions);
      || (s.store.runs[id].cancelRequested && AskedThenCancelled(s.store.log[id]))
      || Interrupted(s.workers, id)
  {
    ExecutionCaused(s0, actions);
    InitialIsGood(s0);
    ExecutionKeepsGood(s0, actions, true);
    assert Sound(LifeOf(After(s0, actions), id), After(s0, actions).clock, true);
  }

  /** The worker after a shutdown in the middle of an execution, and after the executor's end. */
  lemma ShutdownThenFinish(s: Store, clock: real, w: WorkerId, wk: Worker, id: RunId, outcome: ExecutionOutcome)
    requires RunStore.Valid(s) && wk.phase == Executing(id) && wk.ctx.Some?
    ensures Possible(s, clock, wk, Shutdown)
    ensures
      var (s1, wk1) := WorkerStep(s, clock, w, wk, Shutdown);
      && s1 == s && Possible(s, clock, wk1, Finish(outcome))
      && var (s2, wk2) := WorkerStep(s, clock, w, wk1, Finish(outcome));
         s2 == s && wk2.ctx == Some(true) && wk2.phase == AfterExecution(id, outcome)
  {
  }

  /**
   * The consumer's documentation says that a shutdown never marks a run as cancelled and that the
   * run stays RUNNING. Neither holds: with no step of another party in between, whatever the executor
   * does after a shutdown, its running run is ended by the next store call, as CANCELLED if and only
   * if the executor returns normally and as FAILED if and only if it raises.
   */
  lemma ShutdownEndsRun(s: Store, clock: real, w: WorkerId, wk: Worker, id: RunId, outcome: ExecutionOutcome)
    requires RunStore.Valid(s) && id in s.runs && s.runs[id].status == StatusCode.Running
    requires wk.phase == Executing(id) && wk.ctx.Some?
    ensures Possible(s, clock, wk, Shutdown)
    ensures
      var wk1 := WorkerStep(s, clock, w, wk, Shutdown).1;
      && Possible(s, clock, wk1, Finish(outcome))
      && var wk2 := WorkerStep(s, clock, w, wk1, Finish(outcome)).1;
      && Possible(s, clock, wk2, Finalize)
      && var (s', wk') := WorkerStep(s, clock, w, wk2, Finalize);
      && id in s'.runs && wk'.phase == Leaving(id, false)
      && (s'.runs[id].status == StatusCode.Cancelled <==> outcome.Normal?)
      && (s'.runs[id].status == Failed <==> outcome.Raised?)
      && s'.runs[id].cancelRequested == s.runs[id].cancelRequested
  {
    ShutdownThenFinish(s, clock, w, wk, id, outcome);
    var wk1 := WorkerStep(s, clock, w, wk, Shutdown).1;
    var wk2 := WorkerStep(s, clock, w, wk1, Finish(outcome)).1;
    FinalizeRunning(s, wk2, id);
    FinalizeTouches(s, w, wk2);
  }
}
