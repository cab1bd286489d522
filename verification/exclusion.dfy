/**
 * Mutual exclusion: as long as the clock does not pass a lease before the heartbeat loop that
 * guards it renews it, no two workers are ever busy with the same run.
 */
module Exclusion {
  import opened Wrappers
  import opened RunDomain
  import opened RunStore
  import opened RunLife
  import opened WorkerMachine
  import opened Cluster
  import opened ClusterSteps
  import opened ClaimFacts

  /** The worker owns the lease of a running run, and is about to start or keeps its heartbeat. */
  predicate Guards(r: Run, w: WorkerId, wk: Worker) {
    && r.status == StatusCode.Running
    && r.claimedWorker == Some(w)
    && (wk.phase.Holding? || wk.beating)
  }

  /** The timing assumption for one step. */
  ghost predicate Timely(s: System, a: Action)
    requires Enabled(s, a)
  {
    forall w, id | w in s.workers && Busy(s.workers[w].phase) == Some(id) && id in s.store.runs ::
      Guards(s.store.runs[id], w, s.workers[w]) && s.store.runs[id].expiration.Some? ==>
        ClockAfter(s, a) <= s.store.runs[id].expiration.value
  }

  ghost predicate TimelyThroughout(s: System, actions: seq<Action>)
    requires Executes(s, actions)
    decreases |actions|
  {
    actions == [] || (Timely(s, actions[0]) && TimelyThroughout(Next(s, actions[0]), actions[1..]))
  }

  /** No two workers are busy with the same run. */
  ghost predicate Exclusive(s: System) {
    forall v, w | v in s.workers && w in s.workers && v != w ::
      Busy(s.workers[v].phase).Some? ==> Busy(s.workers[v].phase) != Busy(s.workers[w].phase)
  }

  /** What makes it inductive: the run of a busy worker is guarded by it, or can never be claimed again. */
  predicate Secured(r: Run, w: WorkerId, wk: Worker) {
    Doomed(r) || Guards(r, w, wk)
  }

  predicate SecuredAt(s: System, w: WorkerId)
    requires w in s.workers
  {
    var busy := Busy(s.workers[w].phase);
    busy.Some? ==> busy.value in s.store.runs && Secured(s.store.runs[busy.value], w, s.workers[w])
  }

  ghost predicate AllSecured(s: System) {
    forall w | w in s.workers :: SecuredAt(s, w)
  }

  // ----- steps other than claims

  lemma TouchKeepsSecured(r: Run, c: Change, w: WorkerId, wk: Worker)
    requires Secured(r, w, wk) && Permitted(r, c) && !c.Recover? && !c.Take?
    ensures Secured(RunAfter(r, c), w, wk)
  {
  }

  lemma TouchesSecured(s: Store, touch: Touch, id: RunId, w: WorkerId, wk: Worker)
    requires s.runs.Keys == s.log.Keys && id in s.runs && Secured(s.runs[id], w, wk)
    requires touch.Touch? ==> touch.id in s.runs && Permitted(s.runs[touch.id], touch.change)
    requires touch.Touch? ==> !touch.change.Recover? && !touch.change.Take?
    ensures id in ApplyTouch(s, touch).runs && Secured(ApplyTouch(s, touch).runs[id], w, wk)
  {
    if touch.Touch? && touch.id == id {
      TouchKeepsSecured(s.runs[id], touch.change, w, wk);
    }
  }

  /** A worker gives up its heartbeat only for a run that can never be claimed again. */
  lemma BeatKeepsSecured(s: Store, w: WorkerId, wk: Worker, now: real, id: RunId)
    requires s.runs.Keys == s.log.Keys && id in s.runs && Busy(wk.phase) == Some(id) && Scope(wk.phase) == Some(id)
    requires Secured(s.runs[id], w, wk)
    ensures Busy(BeatStep(s, w, wk, now).1.phase) == Some(id)
    ensures id in BeatStep(s, w, wk, now).0.runs
    ensures Secured(BeatStep(s, w, wk, now).0.runs[id], w, BeatStep(s, w, wk, now).1)
  {
  }

  /** `execute_run` goes on with the same run and heartbeat, or is over. */
  lemma FinalizeKeepsBeating(s: Store, wk: Worker)
    requires s.runs.Keys == s.log.Keys && InFinalization(wk.phase)
    ensures FinalizeStep(s, wk).1.beating == wk.beating
    ensures Busy(FinalizeStep(s, wk).1.phase).Some? ==> Busy(FinalizeStep(s, wk).1.phase) == Busy(wk.phase)
    ensures !FinalizeStep(s, wk).1.phase.Holding?
  {
  }

  /** A worker's own step, heartbeats and claims apart, keeps its run and its guard, or ends its work. */
  lemma OwnStepKeepsGuard(s: Store, clock: real, w: WorkerId, wk: Worker, act: Act)
    requires RunStore.Valid(s) && Possible(s, clock, wk, act) && !act.Claim? && !act.Beat?
    ensures
      var next := WorkerStep(s, clock, w, wk, act).1;
      Busy(next.phase).Some? ==>
        && Busy(next.phase) == Busy(wk.phase)
        && (wk.phase.Holding? || wk.beating ==> next.phase.Holding? || next.beating)
  {
    if act.Finalize? {
      FinalizeKeepsBeating(s, wk);
    }
  }

  lemma OwnStepSecured(s: System, a: Action)
    requires Enabled(s, a) && a.Work? && !a.act.Claim? && SecuredAt(s, a.w)
    ensures SecuredAt(Next(s, a), a.w)
    ensures Busy(Next(s, a).workers[a.w].phase).Some? ==>
          Busy(Next(s, a).workers[a.w].phase) == Busy(s.workers[a.w].phase)
  {
    var wk := s.workers[a.w];
    if a.act.Beat? {
      if Busy(wk.phase).Some? {
        BeatKeepsSecured(s.store, a.w, wk, a.act.now, Busy(wk.phase).value);
      }
    } else {
      OwnStepKeepsGuard(s.store, s.clock, a.w, wk, a.act);
      if Busy(wk.phase).Some? {
        StepTouches(s, a);
        TouchIsTimed(s, a);
        TouchesSecured(s.store, TouchOf(s, a), Busy(wk.phase).value, a.w, wk);
      }
    }
  }

  lemma OtherStepSecured(s: System, a: Action, v: WorkerId)
    requires Enabled(s, a) && !IsClaim(a) && v in s.workers && SecuredAt(s, v)
    requires a.Work? ==> a.w != v
    ensures SecuredAt(Next(s, a), v)
    ensures Next(s, a).workers[v] == s.workers[v]
  {
    var busy := Busy(s.workers[v].phase);
    if busy.Some? && !a.CreateRun? {
      StepTouches(s, a);
      TouchIsTimed(s, a);
      TouchesSecured(s.store, TouchOf(s, a), busy.value, v, s.workers[v]);
    }
  }

  // ----- claims

  /** A claim neither takes a doomed run, nor touches a running one whose lease is not over. */
  lemma EffectSpares(r: Run, r': Run, w: WorkerId, now: real, grant: real, taken: bool)
    requires Effect(r, r', w, now, grant, taken)
    ensures Doomed(r) ==> !taken && Doomed(r')
    ensures r.status == StatusCode.Running && !Lapsed(r, now) ==> !taken && r' == r
    ensures taken ==> r'.status == StatusCode.Running && r'.claimedWorker == Some(w)
  {
  }

  lemma StepEffect(s: System, a: Action, id: RunId)
    requires Enabled(s, a) && IsClaim(a) && id in s.store.runs
    ensures id in a.act.t.checks
    ensures Effect(s.store.runs[id], Next(s, a).store.runs[id],
                   a.w, a.act.t.checks[id], a.act.t.grant, HandsOut(s, a, id))
  {
    ClaimNext(s, a);
    ClaimEffect(s.store, a.w, a.act.t, id, Next(s, a).store, HandsOut(s, a, id));
  }

  lemma TimelyNotLapsed(s: System, a: Action, v: WorkerId, id: RunId)
    requires Enabled(s, a) && IsClaim(a) && Timely(s, a)
    requires v in s.workers && Busy(s.workers[v].phase) == Some(id) && id in s.store.runs
    requires Guards(s.store.runs[id], v, s.workers[v])
    ensures id in a.act.t.checks && !Lapsed(s.store.runs[id], a.act.t.checks[id])
  {
  }

  /** A claim keeps the run of any other busy worker secured, and does not hand it out. */
  lemma ClaimKeepsSecured(s: System, a: Action, v: WorkerId, id: RunId)
    requires Enabled(s, a) && IsClaim(a) && Timely(s, a)
    requires v in s.workers && Busy(s.workers[v].phase) == Some(id) && id in s.store.runs
    requires Secured(s.store.runs[id], v, s.workers[v])
    ensures Secured(Next(s, a).store.runs[id], v, s.workers[v])
    ensures !HandsOut(s, a, id)
  {
    StepEffect(s, a, id);
    if !Doomed(s.store.runs[id]) {
      TimelyNotLapsed(s, a, v, id);
    }
    EffectSpares(s.store.runs[id], Next(s, a).store.runs[id],
                 a.w, a.act.t.checks[id], a.act.t.grant, HandsOut(s, a, id));
  }

  lemma ClaimSecuresClaimer(s: System, a: Action, id: RunId)
    requires Enabled(s, a) && IsClaim(a) && HandsOut(s, a, id)
    ensures id in s.store.runs
    ensures Secured(Next(s, a).store.runs[id], a.w, Next(s, a).workers[a.w])
  {
    HandoutNeedsWaiting(s.store, a.w, a.act.t, id);
    StepEffect(s, a, id);
    ClaimerHolds(s, a, id);
  }

  // ----- the theorem

  /** How the runs the workers are busy with move in one step. */
  ghost predicate BusyMoves(s: System, a: Action, v: WorkerId)
    requires Enabled(s, a) && v in s.workers
  {
    var before, later := Busy(s.workers[v].phase), Busy(Next(s, a).workers[v].phase);
    if IsClaim(a) then
      if a.w == v then later.Some? ==> HandsOut(s, a, later.value)
      else later == before && (before.Some? ==> !HandsOut(s, a, before.value))
    else later.Some? ==> later == before
  }

  /** The claimer is busy with exactly the run that is handed out. */
  lemma ClaimerBusy(s: System, a: Action, id: RunId)
    requires Enabled(s, a) && IsClaim(a)
    ensures Busy(Next(s, a).workers[a.w].phase) == Some(id) <==> HandsOut(s, a, id)
  {
    ClaimNextWorkers(s, a);
    ClaimerHolds(s, a, id);
  }

  lemma ClaimerMoves(s: System, a: Action)
    requires Enabled(s, a) && IsClaim(a)
    ensures SecuredAt(Next(s, a), a.w) && BusyMoves(s, a, a.w)
  {
    var busy := Busy(Next(s, a).workers[a.w].phase);
    if busy.Some? {
      ClaimerBusy(s, a, busy.value);
      ClaimSecuresClaimer(s, a, busy.value);
    }
  }

  lemma OthersMove(s: System, a: Action, v: WorkerId)
    requires Enabled(s, a) && IsClaim(a) && Timely(s, a) && v in s.workers && v != a.w && SecuredAt(s, v)
    ensures SecuredAt(Next(s, a), v) && BusyMoves(s, a, v)
  {
    ClaimNextWorkers(s, a);
    assert Next(s, a).workers[v] == s.workers[v];
    if Busy(s.workers[v].phase).Some? {
      ClaimKeepsSecured(s, a, v, Busy(s.workers[v].phase).value);
    }
  }

  lemma StepMoves(s: System, a: Action, v: WorkerId)
    requires Enabled(s, a) && Timely(s, a) && v in s.workers && SecuredAt(s, v)
    ensures SecuredAt(Next(s, a), v) && BusyMoves(s, a, v)
  {
    if IsClaim(a) {
      if a.w == v {
        ClaimerMoves(s, a);
      } else {
        OthersMove(s, a, v);
      }
    } else if a.Work? && a.w == v {
      OwnStepSecured(s, a);
    } else {
      OtherStepSecured(s, a, v);
    }
  }

  lemma MovesKeepExclusive(s: System, a: Action)
    requires Enabled(s, a) && Exclusive(s)
    requires forall v | v in s.workers :: BusyMoves(s, a, v)
    ensures Exclusive(Next(s, a))
  {
    var s' := Next(s, a);
    forall v, w | v in s'.workers && w in s'.workers && v != w
      ensures Busy(s'.workers[v].phase).Some? ==> Busy(s'.workers[v].phase) != Busy(s'.workers[w].phase)
    {
      assert BusyMoves(s, a, v) && BusyMoves(s, a, w);
    }
  }

  lemma StepKeepsExclusive(s: System, a: Action)
    requires Enabled(s, a) && Timely(s, a) && AllSecured(s) && Exclusive(s)
    ensures AllSecured(Next(s, a)) && Exclusive(Next(s, a))
  {
    forall v | v in s.workers
      ensures SecuredAt(Next(s, a), v) && BusyMoves(s, a, v)
    {
      StepMoves(s, a, v);
    }
    MovesKeepExclusive(s, a);
  }

  lemma {:induction false} ExecutionKeepsExclusive(s: System, actions: seq<Action>)
    requires Executes(s, actions) && TimelyThroughout(s, actions) && AllSecured(s) && Exclusive(s)
    ensures AllSecured(After(s, actions)) && Exclusive(After(s, actions))
    decreases |actions|
  {
    if actions != [] {
      StepKeepsExclusive(s, actions[0]);
      ExecutionKeepsExclusive(Next(s, actions[0]), actions[1..]);
    }
  }

  /** Mutual exclusion in every state of every timely execution, deprecated calls included. */
  lemma MutualExclusion(s0: System, actions: seq<Action>, v: WorkerId, w: WorkerId)
    requires Initial(s0) && Executes(s0, actions) && TimelyThroughout(s0, actions)
    requires v in After(s0, actions).workers && w in After(s0, actions).workers && v != w
    requires Busy(After(s0, actions).workers[v].phase).Some?
    ensures Busy(After(s0, actions).workers[v].phase) != Busy(After(s0, actions).workers[w].phase)
  {
    ExecutionKeepsExclusive(s0, actions);
  }

  // ----- the timing assumption is needed

  /** A run that is secured for a worker can only be handed out when its lease is found over. */
  lemma SecuredHandoutIff(s: Store, w: WorkerId, t: Readings, i: nat)
    requires RunStore.Valid(s) && s.runs.Keys <= t.checks.Keys && i < |s.order|
    requires Doomed(s.runs[s.order[i]]) || s.runs[s.order[i]].status == StatusCode.Running
    ensures Claimed(s, w, t) == Some(s.order[i]) <==>
      && !s.runs[s.order[i]].cancelRequested && Lapsed(s.runs[s.order[i]], t.checks[s.order[i]])
      && forall j | 0 <= j < i :: !Claimable(SweptAt(s, w, t, s.order[j]))
  {
    HandoutIff(s, w, t, i);
  }

  lemma CollisionIsHandout(s: System, a: Action, v: WorkerId, id: RunId)
    requires Enabled(s, a) && IsClaim(a) && v in s.workers && v != a.w && Busy(s.workers[v].phase) == Some(id)
    ensures s.store.runs.Keys <= a.act.t.checks.Keys
    ensures Busy(Next(s, a).workers[a.w].phase) == Busy(Next(s, a).workers[v].phase) <==> HandsOut(s, a, id)
  {
    ClaimerBusy(s, a, id);
    ClaimNextWorkers(s, a);
  }

  /**
   * Without it exclusion fails exactly here: a claim takes the run of a busy worker if and only if
   * it finds the lease over, the run has no intent, and no earlier run can be handed out.
   */
  lemma OverrunBreaksExclusionIff(s: System, a: Action, v: WorkerId, i: nat)
    requires Enabled(s, a) && IsClaim(a) && v in s.workers && v != a.w && SecuredAt(s, v)
    requires i < |s.store.order| && Busy(s.workers[v].phase) == Some(s.store.order[i])
    ensures s.store.runs.Keys <= a.act.t.checks.Keys
    ensures Busy(Next(s, a).workers[a.w].phase) == Busy(Next(s, a).workers[v].phase) <==>
      var id, t := s.store.order[i], a.act.t;
      && !s.store.runs[id].cancelRequested && Lapsed(s.store.runs[id], t.checks[id])
      && forall j | 0 <= j < i :: !Claimable(SweptAt(s.store, a.w, t, s.store.order[j]))
  {
    CollisionIsHandout(s, a, v, s.store.order[i]);
    SecuredHandoutIff(s.store, a.w, a.act.t, i);
  }
}
