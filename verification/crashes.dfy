/**
 * What timely executions with many workers guarantee about finalization: an exception can leave
 * `execute_run` only for a run with cancel intent, and then it really can.
 */
module Crashes {
  import opened Wrappers
  import opened RunDomain
  import opened RunStore
  import opened RunLife
  import opened WorkerMachine
  import opened Cluster
  import opened ClusterSteps
  import opened ClaimFacts
  import opened Exclusion
  import opened Finalization
  import opened Executions

  /** The run of a worker is still its own, or has cancel intent and may have been swept away. */
  predicate Kept(r: Run, w: WorkerId, wk: Worker) {
    || (r.status == StatusCode.Running && r.claimedWorker == Some(w)
        && (wk.phase.Holding? || wk.beating || r.cancelRequested))
    || (r.cancelRequested && (r.status == StatusCode.Enqueued || r.status == StatusCode.Cancelled))
  }

  /** A run that failed to be finalized, with the intent that explains it. */
  predicate Explained(r: Run) {
    Doomed(r) && r.cancelRequested
  }

  predicate KeptAt(runs: map<RunId, Run>, w: WorkerId, wk: Worker) {
    && (Busy(wk.phase).Some? ==> Busy(wk.phase).value in runs && Kept(runs[Busy(wk.phase).value], w, wk))
    && (wk.phase.Leaving? && wk.phase.crashed ==> wk.phase.id in runs && Explained(runs[wk.phase.id]))
    && (wk.phase.Crashed? ==> wk.phase.id in runs && Explained(runs[wk.phase.id]))
  }

  lemma OutsideKeeps(r: Run, c: Change, w: WorkerId, wk: Worker)
    requires Permitted(r, c) && (c.Enqueue? || c.AskCancel? || c.Renew? || c.NoteLost? || c.Note?)
    ensures Kept(r, w, wk) ==> Kept(RunAfter(r, c), w, wk)
    ensures Explained(r) ==> Explained(RunAfter(r, c))
  {
  }

  /** Any change but the deprecated one keeps an explanation. */
  lemma ExplanationStays(r: Run, c: Change)
    requires Explained(r) && Permitted(r, c) && !c.MarkCancel?
    ensures Explained(RunAfter(r, c))
  {
  }

  lemma OutsideKeepsKept(s: Store, touch: Touch, w: WorkerId, wk: Worker)
    requires s.runs.Keys == s.log.Keys && KeptAt(s.runs, w, wk)
    requires touch.Touch? ==> touch.id in s.runs && Permitted(s.runs[touch.id], touch.change) && Outside(touch)
    ensures KeptAt(ApplyTouch(s, touch).runs, w, wk)
  {
    if touch.Touch? {
      OutsideKeeps(s.runs[touch.id], touch.change, w, wk);
    }
  }

  /** Another worker's finalization concerns another run, or a run already explained. */
  lemma ForeignKeepsKept(s: Store, touch: Touch, w: WorkerId, wk: Worker)
    requires s.runs.Keys == s.log.Keys && KeptAt(s.runs, w, wk)
    requires touch.Touch? ==> touch.id in s.runs && Permitted(s.runs[touch.id], touch.change)
    requires touch.Touch? ==> !touch.change.MarkCancel?
    requires touch.Touch? ==> Busy(wk.phase) != Some(touch.id)
    ensures KeptAt(ApplyTouch(s, touch).runs, w, wk)
  {
    if touch.Touch? && Explained(s.runs[touch.id]) {
      ExplanationStays(s.runs[touch.id], touch.change);
    }
  }

  // ----- the worker's own steps

  lemma QuietKept(s: Store, clock: real, w: WorkerId, wk: Worker, act: Act)
    requires RunStore.Valid(s) && Possible(s, clock, wk, act) && !act.Claim? && !act.Finalize? && !act.Beat?
    requires KeptAt(s.runs, w, wk)
    ensures KeptAt(s.runs, w, WorkerStep(s, clock, w, wk, act).1)
    ensures Outside(WorkTouch(s, w, wk, act))
  {
  }

  /** The heartbeat stops only once intent has been seen. */
  lemma BeatKept(s: Store, w: WorkerId, wk: Worker, now: real)
    requires s.runs.Keys == s.log.Keys && Scope(wk.phase).Some? && KeptAt(s.runs, w, wk)
    ensures KeptAt(s.runs, w, BeatStep(s, w, wk, now).1)
    ensures Outside(WorkTouch(s, w, wk, Beat(now)))
  {
  }

  lemma FinalizeKept(s: Store, w: WorkerId, wk: Worker)
    requires s.runs.Keys == s.log.Keys && InFinalization(wk.phase) && KeptAt(s.runs, w, wk)
    ensures KeptAt(FinalizeStep(s, wk).0.runs, w, FinalizeStep(s, wk).1)
  {
    var id := wk.phase.id;
    if s.runs[id].status == StatusCode.Running {
      FinalizeRunning(s, wk, id);
    }
  }

  lemma OwnStepKept(s: System, a: Action)
    requires Enabled(s, a) && a.Work? && !a.act.Claim? && KeptAt(s.store.runs, a.w, s.workers[a.w])
    ensures KeptAt(Next(s, a).store.runs, a.w, Next(s, a).workers[a.w])
  {
    var wk := s.workers[a.w];
    if a.act.Finalize? {
      FinalizeKept(s.store, a.w, wk);
    } else {
      StepTouches(s, a);
      TouchIsTimed(s, a);
      if a.act.Beat? {
        BeatKept(s.store, a.w, wk, a.act.now);
      } else {
        QuietKept(s.store, s.clock, a.w, wk, a.act);
      }
      OutsideKeepsKept(s.store, TouchOf(s, a), a.w, Next(s, a).workers[a.w]);
    }
  }

  // ----- other parties' steps

  lemma ApiStepKept(s: System, a: Action, v: WorkerId)
    requires Enabled(s, a) && !a.Work? && !a.DeprecatedCancel? && v in s.workers
    requires KeptAt(s.store.runs, v, s.workers[v])
    ensures KeptAt(Next(s, a).store.runs, v, Next(s, a).workers[v])
  {
    if !a.CreateRun? {
      StepTouches(s, a);
      TouchIsTimed(s, a);
      OutsideKeepsKept(s.store, TouchOf(s, a), v, s.workers[v]);
    }
  }

  lemma ForeignTouch(s: Store, w: WorkerId, wk: Worker, act: Act)
    requires act.Emit? ==> wk.phase.Executing?
    requires act.Finalize? ==> InFinalization(wk.phase)
    requires act.Beat? ==> Scope(wk.phase).Some?
    ensures
      var touch := WorkTouch(s, w, wk, act);
      touch.Touch? ==> Outside(touch) || Busy(wk.phase) == Some(touch.id)
  {
  }

  lemma ForeignStepKept(s: System, a: Action, v: WorkerId)
    requires Enabled(s, a) && a.Work? && !a.act.Claim? && v in s.workers && v != a.w
    requires Busy(s.workers[v].phase).Some? ==> Busy(s.workers[v].phase) != Busy(s.workers[a.w].phase)
    requires KeptAt(s.store.runs, v, s.workers[v])
    ensures KeptAt(Next(s, a).store.runs, v, Next(s, a).workers[v])
  {
    StepTouches(s, a);
    TouchIsTimed(s, a);
    ForeignTouch(s.store, a.w, s.workers[a.w], a.act);
    var touch := TouchOf(s, a);
    if touch.Touch? && !Outside(touch) {
      ForeignKeepsKept(s.store, touch, v, s.workers[v]);
    } else {
      OutsideKeepsKept(s.store, touch, v, s.workers[v]);
    }
  }

  lemma EffectKept(r: Run, r': Run, w: WorkerId, now: real, grant: real, taken: bool, v: WorkerId, wk: Worker)
    requires Effect(r, r', w, now, grant, taken)
    requires Kept(r, v, wk) && (Guards(r, v, wk) ==> !Lapsed(r, now))
    ensures Kept(r', v, wk)
  {
  }

  lemma EffectExplained(r: Run, r': Run, w: WorkerId, now: real, grant: real, taken: bool)
    requires Effect(r, r', w, now, grant, taken) && Explained(r)
    ensures Explained(r')
  {
  }

  lemma ClaimStepKept(s: System, a: Action, v: WorkerId)
    requires Enabled(s, a) && IsClaim(a) && Timely(s, a) && v in s.workers && v != a.w
    requires KeptAt(s.store.runs, v, s.workers[v])
    ensures KeptAt(Next(s, a).store.runs, v, s.workers[v])
  {
    var wk := s.workers[v];
    var t := a.act.t;
    if Busy(wk.phase).Some? {
      var id := Busy(wk.phase).value;
      StepEffect(s, a, id);
      if Guards(s.store.runs[id], v, wk) {
        TimelyNotLapsed(s, a, v, id);
      }
      EffectKept(s.store.runs[id], Next(s, a).store.runs[id], a.w, t.checks[id], t.grant, HandsOut(s, a, id), v, wk);
    } else if (wk.phase.Leaving? && wk.phase.crashed) || wk.phase.Crashed? {
      var id := wk.phase.id;
      StepEffect(s, a, id);
      EffectExplained(s.store.runs[id], Next(s, a).store.runs[id], a.w, t.checks[id], t.grant, HandsOut(s, a, id));
    }
  }

  lemma ClaimerKept(s: System, a: Action)
    requires Enabled(s, a) && IsClaim(a)
    ensures KeptAt(Next(s, a).store.runs, a.w, Next(s, a).workers[a.w])
  {
    ClaimOnTrack(s, a);
    ClaimNextWorkers(s, a);
  }

  // ----- the theorem

  ghost predicate AllKept(s: System) {
    forall w | w in s.workers :: KeptAt(s.store.runs, w, s.workers[w])
  }

  lemma StepKept(s: System, a: Action, v: WorkerId)
    requires Enabled(s, a) && Timely(s, a) && Exclusive(s) && !a.DeprecatedCancel?
    requires v in s.workers && KeptAt(s.store.runs, v, s.workers[v])
    ensures KeptAt(Next(s, a).store.runs, v, Next(s, a).workers[v])
  {
    if !a.Work? {
      ApiStepKept(s, a, v);
    } else if a.act.Claim? {
      if a.w == v {
        ClaimerKept(s, a);
      } else {
        ClaimStepKept(s, a, v);
      }
    } else if a.w == v {
      OwnStepKept(s, a);
    } else {
      ForeignStepKept(s, a, v);
    }
  }

  lemma {:induction false} ExecutionKept(s: System, actions: seq<Action>)
    requires Executes(s, actions) && TimelyThroughout(s, actions) && WithoutDeprecated(actions)
    requires AllSecured(s) && Exclusive(s) && AllKept(s)
    ensures AllKept(After(s, actions))
    decreases |actions|
  {
    if actions != [] {
      assert actions[0] in actions;
      forall v | v in s.workers
        ensures KeptAt(Next(s, actions[0]).store.runs, v, Next(s, actions[0]).workers[v])
      {
        StepKept(s, actions[0], v);
      }
      StepKeepsExclusive(s, actions[0]);
      ExecutionKept(Next(s, actions[0]), actions[1..]);
    }
  }

  lemma TimelyIsKept(s0: System, actions: seq<Action>)
    requires Initial(s0) && Executes(s0, actions) && TimelyThroughout(s0, actions) && WithoutDeprecated(actions)
    ensures AllKept(After(s0, actions)) && AllSecured(After(s0, actions)) && Exclusive(After(s0, actions))
  {
    ExecutionKept(s0, actions);
    ExecutionKeepsExclusive(s0, actions);
  }

  /** Only cancel intent can make `execute_run` raise, and without it a worker keeps its own run. */
  lemma OnlyIntentCrashes(s0: System, actions: seq<Action>, w: WorkerId)
    requires Initial(s0) && Executes(s0, actions) && TimelyThroughout(s0, actions) && WithoutDeprecated(actions)
    requires w in After(s0, actions).workers
    ensures
      var s := After(s0, actions);
      var wk := s.workers[w];
      && (wk.phase.Crashed? ==> wk.phase.id in s.store.runs && s.store.runs[wk.phase.id].cancelRequested)
      && (Busy(wk.phase).Some? ==>
            && Busy(wk.phase).value in s.store.runs
            && var r := s.store.runs[Busy(wk.phase).value];
               !r.cancelRequested ==>
                 && r.status == StatusCode.Running && r.claimedWorker == Some(w)
                 && (wk.phase.Holding? || wk.beating))
  {
    TimelyIsKept(s0, actions);
  }

  /** `set_failed` in the except branch raises exactly when the run is not running any more. */
  lemma ExceptBranchRaisesIff(s: Store, wk: Worker)
    requires s.runs.Keys == s.log.Keys && wk.phase.Failing?
    ensures FinalizeStep(s, wk).1.phase ==
            Leaving(wk.phase.id, wk.phase.id !in s.runs || s.runs[wk.phase.id].status != StatusCode.Running)
  {
  }

  // ----- who ends a run

  /**
   * The finalizing calls do not ask who is calling, but only the owner of a running run comes to
   * make them on it; in particular SUCCEEDED and FAILED are written by owners only.
   */
  lemma OnlyOwnerFinalizes(s0: System, actions: seq<Action>, w: WorkerId, touch: Touch)
    requires Initial(s0) && Executes(s0, actions) && TimelyThroughout(s0, actions) && WithoutDeprecated(actions)
    requires Enabled(After(s0, actions), Work(w, Finalize))
    requires touch == TouchOf(After(s0, actions), Work(w, Finalize)) && touch.Touch?
    ensures touch.id in After(s0, actions).store.runs
    ensures
      var r := After(s0, actions).store.runs[touch.id];
      && (touch.change.Succeed? || touch.change.Fail? ==> r.status == StatusCode.Running)
      && (r.status == StatusCode.Running ==> r.claimedWorker == Some(w))
  {
    TimelyIsKept(s0, actions);
    var s := After(s0, actions);
    assert KeptAt(s.store.runs, w, s.workers[w]);
    FinalizeTouchesBusy(s.store, w, s.workers[w]);
  }

  lemma FinalizeTouchesBusy(s: Store, w: WorkerId, wk: Worker)
    requires InFinalization(wk.phase)
    ensures
      var touch := WorkTouch(s, w, wk, Finalize);
      touch.Touch? ==>
        && Busy(wk.phase) == Some(touch.id) && touch.id in s.runs
        && (touch.change.Succeed? || touch.change.Fail? ==> s.runs[touch.id].status == StatusCode.Running)
  {
  }

  /** Only a finalizing call, or the deprecated cancellation, is a change that ends a running run. */
  lemma EndingChange(r: Run, c: Change)
    requires r.status == StatusCode.Running && Permitted(r, c) && Terminal(RunAfter(r, c).status)
    ensures c.Cancel? || c.Succeed? || c.Fail? || c.MarkCancel?
  {
  }

  lemma EndingTouch(s: Store, touch: Touch, id: RunId)
    requires s.runs.Keys == s.log.Keys && id in s.runs && s.runs[id].status == StatusCode.Running
    requires touch.Touch? ==> touch.id in s.runs && Permitted(s.runs[touch.id], touch.change)
    requires Terminal(ApplyTouch(s, touch).runs[id].status)
    ensures touch.Touch? && touch.id == id
    ensures touch.change.Cancel? || touch.change.Succeed? || touch.change.Fail? || touch.change.MarkCancel?
  {
    if touch.Touch? && touch.id == id {
      EndingChange(s.runs[id], touch.change);
    }
  }

  /** A claim ends a running run only by recovering it and cancelling it for its intent. */
  lemma EndingEffect(r: Run, r': Run, w: WorkerId, now: real, grant: real, taken: bool)
    requires Effect(r, r', w, now, grant, taken) && r.status == StatusCode.Running && Terminal(r'.status)
    ensures Lapsed(r, now) && r.cancelRequested && r'.status == StatusCode.Cancelled
  {
  }

  /** No step but a finalizing one touches a run with a finalizing change. */
  lemma EndingStep(s: System, a: Action)
    requires Enabled(s, a) && !a.DeprecatedCancel? && TouchOf(s, a).Touch?
    requires
      var c := TouchOf(s, a).change;
      c.Cancel? || c.Succeed? || c.Fail? || c.MarkCancel?
    ensures a.Work? && a.act.Finalize?
  {
  }

  /**
   * The two ways in which a running run ends: its owner finalizes it, or a claim finds its lease
   * over and cancels it for its intent.
   */
  lemma EndedByOwnerOrSwept(s0: System, actions: seq<Action>, s: System, a: Action, id: RunId)
    requires Initial(s0) && Executes(s0, actions) && TimelyThroughout(s0, actions) && WithoutDeprecated(actions)
    requires s == After(s0, actions) && Enabled(s, a) && !a.DeprecatedCancel?
    requires id in s.store.runs && s.store.runs[id].status == StatusCode.Running
    requires Terminal(Next(s, a).store.runs[id].status)
    ensures
      var r, r' := s.store.runs[id], Next(s, a).store.runs[id];
      if IsClaim(a) then
        && id in a.act.t.checks && Lapsed(r, a.act.t.checks[id])
        && r.cancelRequested && r'.status == StatusCode.Cancelled
      else
        a.Work? && a.act.Finalize? && r.claimedWorker == Some(a.w)
  {
    if IsClaim(a) {
      StepEffect(s, a, id);
      EndingEffect(s.store.runs[id], Next(s, a).store.runs[id],
                   a.w, a.act.t.checks[id], a.act.t.grant, HandsOut(s, a, id));
    } else if !a.CreateRun? {
      StepTouches(s, a);
      TouchIsTimed(s, a);
      EndingTouch(s.store, TouchOf(s, a), id);
      EndingStep(s, a);
      OnlyOwnerFinalizes(s0, actions, a.w, TouchOf(s, a));
    }
  }

  /** A claim that keeps time retries no run that a worker is busy with, unless it carries intent. */
  lemma BusyRunsAreNotRetried(s0: System, actions: seq<Action>, s: System, a: Action, w: WorkerId, id: RunId)
    requires Initial(s0) && Executes(s0, actions) && TimelyThroughout(s0, actions) && WithoutDeprecated(actions)
    requires s == After(s0, actions) && Enabled(s, a) && IsClaim(a) && Timely(s, a)
    requires w in s.workers && Busy(s.workers[w].phase) == Some(id)
    ensures id in s.store.runs && id in a.act.t.checks
    ensures Next(s, a).store.runs[id].retryCount != s.store.runs[id].retryCount ==> s.store.runs[id].cancelRequested
  {
    TimelyIsKept(s0, actions);
    assert KeptAt(s.store.runs, w, s.workers[w]);
    StepEffect(s, a, id);
    if !s.store.runs[id].cancelRequested {
      TimelyNotLapsed(s, a, w, id);
      EffectSpares(s.store.runs[id], Next(s, a).store.runs[id],
                   a.w, a.act.t.checks[id], a.act.t.grant, HandsOut(s, a, id));
    }
  }

  // ----- intent before the read, any number of workers

  /** A worker busy with the run is still to read the intent or has read it. */
  predicate Heeds(p: Phase, id: RunId) {
    Busy(p) == Some(id) ==> p == Returned(id) || p == Cancelling(id)
  }

  predicate StillToAct(p: Phase, id: RunId) {
    p == Returned(id) || p == Cancelling(id) || p.Killed?
  }

  predicate Intent(r: Run) {
    r.cancelRequested && (r.status == StatusCode.Running || r.status == StatusCode.Enqueued)
  }

  /** The run is cancelled, or its intent is recorded and worker w is still to act on it. */
  ghost predicate Awaited(s: System, w: WorkerId, id: RunId) {
    && id in s.store.runs && w in s.workers
    && (|| s.store.runs[id].status == StatusCode.Cancelled
        || (&& Intent(s.store.runs[id]) && StillToAct(s.workers[w].phase, id)
            && forall v | v in s.workers :: Heeds(s.workers[v].phase, id)))
  }

  /** What a worker's step may do about a run with intent. */
  predicate Heeded(r: Run, p: Phase, p': Phase, id: RunId) {
    || r.status == StatusCode.Cancelled
    || (Intent(r) && Heeds(p', id) && (StillToAct(p, id) ==> StillToAct(p', id)))
  }

  lemma FinalizeHeeds(s: Store, wk: Worker, id: RunId)
    requires s.runs.Keys == s.log.Keys && InFinalization(wk.phase) && id in s.runs
    requires Intent(s.runs[id]) && Heeds(wk.phase, id)
    ensures id in FinalizeStep(s, wk).0.runs
    ensures Heeded(FinalizeStep(s, wk).0.runs[id], wk.phase, FinalizeStep(s, wk).1.phase, id)
  {
  }

  /** Any change but a finalization leaves the intent, or cancels. */
  lemma OutsideIntent(s: Store, touch: Touch, id: RunId)
    requires s.runs.Keys == s.log.Keys && id in s.runs && Intent(s.runs[id])
    requires touch.Touch? ==> touch.id in s.runs && Permitted(s.runs[touch.id], touch.change)
    requires Outside(touch) || (touch.Touch? && touch.change.MarkCancel?)
    ensures id in ApplyTouch(s, touch).runs
    ensures ApplyTouch(s, touch).runs[id].status == StatusCode.Cancelled || Intent(ApplyTouch(s, touch).runs[id])
  {
  }

  lemma QuietHeeds(s: Store, clock: real, w: WorkerId, wk: Worker, act: Act, id: RunId)
    requires RunStore.Valid(s) && Possible(s, clock, wk, act) && !act.Claim? && !act.Finalize?
    requires Heeds(wk.phase, id)
    ensures Heeds(WorkerStep(s, clock, w, wk, act).1.phase, id)
    ensures StillToAct(wk.phase, id) ==> StillToAct(WorkerStep(s, clock, w, wk, act).1.phase, id)
    ensures Outside(WorkTouch(s, w, wk, act))
  {
  }

  lemma WorkHeeds(s: System, a: Action, id: RunId)
    requires Enabled(s, a) && a.Work? && !a.act.Claim? && id in s.store.runs
    requires Intent(s.store.runs[id]) && Heeds(s.workers[a.w].phase, id)
    ensures Heeded(Next(s, a).store.runs[id], s.workers[a.w].phase, Next(s, a).workers[a.w].phase, id)
  {
    if a.act.Finalize? {
      FinalizeHeeds(s.store, s.workers[a.w], id);
    } else {
      QuietHeeds(s.store, s.clock, a.w, s.workers[a.w], a.act, id);
      StepTouches(s, a);
      TouchIsTimed(s, a);
      OutsideIntent(s.store, TouchOf(s, a), id);
    }
  }

  lemma ClaimKeepsIntent(s: System, a: Action, id: RunId)
    requires Enabled(s, a) && IsClaim(a) && id in s.store.runs && Intent(s.store.runs[id])
    ensures !HandsOut(s, a, id)
    ensures Next(s, a).store.runs[id].status == StatusCode.Cancelled || Intent(Next(s, a).store.runs[id])
  {
    StepEffect(s, a, id);
    EffectSpares(s.store.runs[id], Next(s, a).store.runs[id],
                 a.w, a.act.t.checks[id], a.act.t.grant, HandsOut(s, a, id));
  }

  lemma ClaimHeeds(workers: map<WorkerId, Worker>, claimer: WorkerId, wk: Worker, w: WorkerId, id: RunId)
    requires w in workers && Heeds(workers[w].phase, id) && Busy(wk.phase) != Some(id)
    requires claimer in workers && workers[claimer].phase.Waiting?
    ensures Heeds(workers[claimer := wk][w].phase, id)
    ensures StillToAct(workers[w].phase, id) ==> workers[claimer := wk][w] == workers[w]
  {
  }

  lemma ClaimAwaits(s: System, a: Action, w: WorkerId, id: RunId)
    requires Enabled(s, a) && IsClaim(a) && Awaited(s, w, id) && Intent(s.store.runs[id])
    ensures Awaited(Next(s, a), w, id)
  {
    ClaimKeepsIntent(s, a, id);
    ClaimerBusy(s, a, id);
    ClaimNextWorkers(s, a);
    forall v | v in s.workers
      ensures Heeds(Next(s, a).workers[v].phase, id)
      ensures StillToAct(s.workers[v].phase, id) ==> Next(s, a).workers[v] == s.workers[v]
    {
      ClaimHeeds(s.workers, a.w, Next(s, a).workers[a.w], v, id);
    }
  }

  lemma OtherAwaits(s: System, a: Action, w: WorkerId, id: RunId)
    requires Enabled(s, a) && !IsClaim(a) && Awaited(s, w, id) && Intent(s.store.runs[id])
    ensures Awaited(Next(s, a), w, id)
  {
    if a.Work? {
      WorkHeeds(s, a, id);
    } else if !a.CreateRun? {
      StepTouches(s, a);
      TouchIsTimed(s, a);
      OutsideIntent(s.store, TouchOf(s, a), id);
    }
  }

  lemma StepAwaits(s: System, a: Action, w: WorkerId, id: RunId)
    requires Enabled(s, a) && Awaited(s, w, id)
    ensures Awaited(Next(s, a), w, id)
  {
    if s.store.runs[id].status == StatusCode.Cancelled {
      StepAbsorbed(s, a, id);
    } else if IsClaim(a) {
      ClaimAwaits(s, a, w, id);
    } else {
      OtherAwaits(s, a, w, id);
    }
  }

  lemma {:induction false} ExecutionAwaits(s: System, actions: seq<Action>, w: WorkerId, id: RunId)
    requires Executes(s, actions) && Awaited(s, w, id)
    ensures Awaited(After(s, actions), w, id)
    decreases |actions|
  {
    if actions != [] {
      StepAwaits(s, actions[0], w, id);
      ExecutionAwaits(Next(s, actions[0]), actions[1..], w, id);
    }
  }

  lemma ReturnedIsAwaited(s: System, w: WorkerId, id: RunId)
    requires Exclusive(s) && AllKept(s) && w in s.workers && s.workers[w].phase == Returned(id)
    requires id in s.store.runs && s.store.runs[id].cancelRequested
    ensures Awaited(s, w, id)
  {
    assert KeptAt(s.store.runs, w, s.workers[w]);
  }

  lemma AwaitedStatus(s: System, w: WorkerId, id: RunId)
    requires Awaited(s, w, id)
    ensures s.store.runs[id].status in {StatusCode.Running, StatusCode.Enqueued, StatusCode.Cancelled}
    ensures s.workers[w].phase !in {Returned(id), Cancelling(id), Killed} ==>
              s.store.runs[id].status == StatusCode.Cancelled
  {
  }

  /**
   * Intent before the read, among any number of workers: if it is recorded when the executor has
   * returned in a timely execution, the run never becomes SUCCEEDED or FAILED, whatever happens
   * then, and it is CANCELLED once that worker has moved on.
   */
  lemma IntentBeforeReadHolds(s0: System, before: seq<Action>, later: seq<Action>, w: WorkerId, id: RunId)
    requires Initial(s0) && Executes(s0, before) && TimelyThroughout(s0, before) && WithoutDeprecated(before)
    requires w in After(s0, before).workers && After(s0, before).workers[w].phase == Returned(id)
    requires id in After(s0, before).store.runs && After(s0, before).store.runs[id].cancelRequested
    requires Executes(After(s0, before), later)
    ensures
      var s := After(After(s0, before), later);
      && id in s.store.runs && w in s.workers
      && s.store.runs[id].status in {StatusCode.Running, StatusCode.Enqueued, StatusCode.Cancelled}
      && (s.workers[w].phase !in {Returned(id), Cancelling(id), Killed} ==>
            s.store.runs[id].status == StatusCode.Cancelled)
  {
    TimelyIsKept(s0, before);
    ReturnedIsAwaited(After(s0, before), w, id);
    ExecutionAwaits(After(s0, before), later, w, id);
    AwaitedStatus(After(After(s0, before), later), w, id);
  }
}
