/**
 * The consumer's code and the system: whatever the other parties and the heartbeat task do between
 * the store calls of `execute_run`, the class computes what the system does.
 */
module Refinement {
  import opened RunDomain
  import opened RunStore
  import opened WorkerMachine
  import opened Cluster
  import opened ClusterSteps
  import opened Finalization
  import opened Consumer

  /** The worker without the heartbeat task and the record of shutdowns, which finalization ignores. */
  function Plain(wk: Worker): Worker {
    wk.(beating := true, interrupted := {})
  }

  lemma FinalizePlain(s: Store, wk: Worker)
    requires s.runs.Keys == s.log.Keys && InFinalization(wk.phase)
    ensures FinalizeStep(s, Plain(wk)) == (FinalizeStep(s, wk).0, Plain(FinalizeStep(s, wk).1))
  {
  }

  /** Worker w stays in finalization, until the last of the actions ends it. */
  ghost predicate FinalizesWith(s: System, actions: seq<Action>, w: WorkerId)
    requires Executes(s, actions)
    decreases |actions|
  {
    && actions != []
    && w in s.workers && InFinalization(s.workers[w].phase)
    && if |actions| == 1 then actions[0] == Work(w, Finalize) && Next(s, actions[0]).workers[w].phase.Leaving?
       else FinalizesWith(Next(s, actions[0]), actions[1..], w)
  }

  /** What steps in between can do to a worker: cancel its context, and forbid it to go on. */
  predicate Disturbed(wk: Worker, wk': Worker) {
    && wk.ctx.Some? && wk'.phase == wk.phase && wk'.ctx.Some? && (wk.ctx.value ==> wk'.ctx.value)
    && (wk'.allowed ==> wk.allowed) && (wk.allowed && !wk'.allowed ==> wk'.ctx.value)
  }

  lemma QuietFinalization(s: Store, clock: real, w: WorkerId, wk: Worker, act: Act)
    requires RunStore.Valid(s) && Possible(s, clock, wk, act) && InFinalization(wk.phase) && wk.ctx.Some?
    requires !act.Finalize? && InFinalization(WorkerStep(s, clock, w, wk, act).1.phase)
    ensures Disturbed(wk, WorkerStep(s, clock, w, wk, act).1)
  {
  }

  lemma QuietWorker(s: System, a: Action, w: WorkerId)
    requires Enabled(s, a) && w in s.workers && InFinalization(s.workers[w].phase) && s.workers[w].ctx.Some?
    requires a != Work(w, Finalize) && InFinalization(Next(s, a).workers[w].phase)
    ensures Disturbed(s.workers[w], Next(s, a).workers[w])
  {
    if a.Work? && a.w == w {
      OwnStep(s, a);
      QuietFinalization(s.store, s.clock, w, s.workers[w], a.act);
    } else {
      OtherStep(s, a, w);
    }
  }

  /** A moment that also covers what has happened to the worker before it. */
  function Earlier(wk: Worker, wk': Worker, m: Moment): Moment
    requires wk'.ctx.Some?
  {
    m.(cancelled := m.cancelled || wk'.ctx.value, shutdown := m.shutdown || (wk.allowed && !wk'.allowed))
  }

  lemma EarlierIsSeen(wk: Worker, wk': Worker, m: Moment)
    requires Disturbed(wk, wk')
    ensures Seen(Plain(wk), Earlier(wk, wk', m)) == Seen(Plain(wk'), m)
  {
  }

  lemma ValidAgain(m: Moment, moments: seq<Moment>)
    requires ValidMoments(moments) && moments != [] && m.store == moments[0].store
    ensures ValidMoments([m] + moments[1..])
  {
    assert RunStore.Valid(moments[0].store);
    forall i | 0 <= i < |moments|
      ensures RunStore.Valid(([m] + moments[1..])[i].store)
    {
      assert i > 0 ==> ([m] + moments[1..])[i] == moments[i];
    }
  }

  /** The first moment matters only for its store and for how the worker is seen then. */
  lemma ConcludedAsSeen(wk: Worker, m: seq<Moment>, wk': Worker, m': seq<Moment>)
    requires InFinalization(wk.phase) && wk'.phase == wk.phase && wk.ctx.Some? && wk'.ctx.Some?
    requires |m| == |m'| >= CallsLeft(wk.phase) && ValidMoments(m) && ValidMoments(m')
    requires Seen(wk, m[0]) == Seen(wk', m'[0]) && m[0].store == m'[0].store && m[1..] == m'[1..]
    ensures Concluded(wk, m) == Concluded(wk', m')
  {
  }

  lemma ConcludedEarlier(wk: Worker, wk': Worker, moments: seq<Moment>)
    requires InFinalization(wk.phase) && Disturbed(wk, wk')
    requires |moments| >= CallsLeft(wk.phase) && ValidMoments(moments)
    ensures ValidMoments([Earlier(wk, wk', moments[0])] + moments[1..])
    ensures Concluded(Plain(wk), [Earlier(wk, wk', moments[0])] + moments[1..]) == Concluded(Plain(wk'), moments)
  {
    var m := Earlier(wk, wk', moments[0]);
    EarlierIsSeen(wk, wk', moments[0]);
    ValidAgain(m, moments);
    assert ([m] + moments[1..])[1..] == moments[1..];
    ConcludedAsSeen(Plain(wk), [m] + moments[1..], Plain(wk'), moments);
  }

  /** The moment of a call that nothing has come before. */
  function Now(s: System): Moment {
    Moment(s.store, false, false)
  }

  lemma ConcludedOnce(wk: Worker, moments: seq<Moment>)
    requires InFinalization(wk.phase) && wk.ctx.Some? && |moments| >= CallsLeft(wk.phase) && ValidMoments(moments)
    requires Seen(wk, moments[0]) == wk
    ensures moments[0].store.runs.Keys == moments[0].store.log.Keys
    ensures
      var turn := FinalizeStep(moments[0].store, wk);
      if turn.1.phase.Leaving? then Concluded(wk, moments) == turn
      else
        && InFinalization(turn.1.phase) && turn.1.ctx.Some? && |moments[1..]| >= CallsLeft(turn.1.phase)
        && ValidMoments(moments[1..]) && Concluded(wk, moments) == Concluded(turn.1, moments[1..])
  {
    assert RunStore.Valid(moments[0].store);
    FinalizationTerminates(moments[0].store, wk);
    FinalizeContext(moments[0].store, wk);
  }

  lemma ConcludedNow(s: System, wk: Worker, moments: seq<Moment>)
    requires Wellformed(s) && InFinalization(wk.phase) && wk.ctx.Some? && ValidMoments(moments)
    requires |moments| >= CallsLeft(wk.phase) - 1
    ensures ValidMoments([Now(s)] + moments)
    ensures
      var turn := FinalizeStep(s.store, wk);
      && (turn.1.phase.Leaving? ==> Concluded(Plain(wk), [Now(s)] + moments) == (turn.0, Plain(turn.1)))
      && (!turn.1.phase.Leaving? ==>
            && InFinalization(turn.1.phase) && turn.1.ctx.Some? && |moments| >= CallsLeft(turn.1.phase)
            && Concluded(Plain(wk), [Now(s)] + moments) == Concluded(Plain(turn.1), moments))
  {
    assert RunStore.Valid(Now(s).store);
    assert ([Now(s)] + moments)[1..] == moments;
    FinalizePlain(s.store, wk);
    ConcludedOnce(Plain(wk), [Now(s)] + moments);
  }

  /** Every finalization in the system is that of the class, for some moments. */
  lemma {:induction false} FinalizationIsConcluded(s: System, actions: seq<Action>, w: WorkerId)
    returns (moments: seq<Moment>)
    requires Executes(s, actions) && Wellformed(s) && FinalizesWith(s, actions, w) && s.workers[w].ctx.Some?
    ensures w in After(s, actions).workers
    ensures |moments| >= 3 && ValidMoments(moments)
    ensures Concluded(Plain(s.workers[w]), moments) ==
            (After(s, actions).store, Plain(After(s, actions).workers[w]))
    decreases |actions|
  {
    var a, wk := actions[0], s.workers[w];
    var next := Next(s, a);
    StepKeepsWellformed(s, a);
    if |actions| == 1 {
      ConcludedNow(s, wk, [Now(s), Now(s)]);
      moments := [Now(s), Now(s), Now(s)];
      assert moments == [Now(s)] + [Now(s), Now(s)];
      assert actions[1..] == [];
    } else if a == Work(w, Finalize) {
      FinalizationTerminates(s.store, wk);
      ContextStays(s, w);
      var rest := FinalizationIsConcluded(next, actions[1..], w);
      ConcludedNow(s, wk, rest);
      moments := [Now(s)] + rest;
    } else {
      QuietWorker(s, a, w);
      var rest := FinalizationIsConcluded(next, actions[1..], w);
      ConcludedEarlier(wk, next.workers[w], rest);
      moments := [Earlier(wk, next.workers[w], rest[0])] + rest[1..];
    }
  }

  lemma ContextStays(s: System, w: WorkerId)
    requires Enabled(s, Work(w, Finalize)) && s.workers[w].ctx.Some?
    ensures Next(s, Work(w, Finalize)).workers[w] == FinalizeStep(s.store, s.workers[w]).1
    ensures Next(s, Work(w, Finalize)).store == FinalizeStep(s.store, s.workers[w]).0
    ensures
      var wk := Next(s, Work(w, Finalize)).workers[w];
      InFinalization(wk.phase) ==> wk.ctx.Some?
  {
    OwnStep(s, Work(w, Finalize));
    FinalizeContext(s.store, s.workers[w]);
  }

  lemma FinalizeContext(s: Store, wk: Worker)
    requires s.runs.Keys == s.log.Keys && InFinalization(wk.phase) && wk.ctx.Some?
    ensures InFinalization(FinalizeStep(s, wk).1.phase) ==> FinalizeStep(s, wk).1.ctx == wk.ctx
  {
  }

  // ----- from the start of the execution

  /** Worker w executes a run that it has begun, with what a shutdown does to it, if there is one. */
  predicate InExecution(wk: Worker, id: RunId) {
    wk.phase == Executing(id) && wk.ctx.Some? && (wk.allowed || wk.ctx.value)
  }

  /** The executor of worker w ends, and so does the finalization. */
  ghost predicate ServesWith(s: System, actions: seq<Action>, w: WorkerId, outcome: ExecutionOutcome)
    requires Executes(s, actions)
    decreases |actions|
  {
    && actions != [] && w in s.workers && s.workers[w].phase.Executing?
    && if actions[0] == Work(w, Finish(outcome)) then FinalizesWith(Next(s, actions[0]), actions[1..], w)
       else ServesWith(Next(s, actions[0]), actions[1..], w, outcome)
  }

  lemma QuietAct(s: Store, clock: real, w: WorkerId, wk: Worker, act: Act, id: RunId)
    requires RunStore.Valid(s) && Possible(s, clock, wk, act) && InExecution(wk, id)
    requires WorkerStep(s, clock, w, wk, act).1.phase.Executing?
    ensures InExecution(WorkerStep(s, clock, w, wk, act).1, id)
  {
  }

  lemma QuietExecution(s: System, a: Action, w: WorkerId, id: RunId)
    requires Enabled(s, a) && w in s.workers && InExecution(s.workers[w], id)
    requires Next(s, a).workers[w].phase.Executing?
    ensures InExecution(Next(s, a).workers[w], id)
  {
    if a.Work? && a.w == w {
      OwnStep(s, a);
      QuietAct(s.store, s.clock, w, s.workers[w], a.act, id);
    } else {
      OtherStep(s, a, w);
    }
  }

  lemma FinishedWorker(s: System, w: WorkerId, id: RunId, outcome: ExecutionOutcome)
    requires Enabled(s, Work(w, Finish(outcome))) && InExecution(s.workers[w], id)
    ensures Next(s, Work(w, Finish(outcome))).workers[w] == s.workers[w].(phase := AfterExecution(id, outcome))
  {
  }

  /**
   * Every execution of a run in the system, from its begin to the end of `execute_run`, whatever
   * happens in between, is what the consumer class computes for some interference.
   */
  lemma {:induction false} ExecutionIsServed(
    s: System, actions: seq<Action>, w: WorkerId, id: RunId, outcome: ExecutionOutcome)
    returns (moments: seq<Moment>)
    requires Executes(s, actions) && Wellformed(s) && ServesWith(s, actions, w, outcome)
    requires InExecution(s.workers[w], id)
    ensures |moments| >= 3 && ValidMoments(moments) && w in After(s, actions).workers
    ensures
      var end, wk := After(s, actions), After(s, actions).workers[w];
      && wk.phase.Leaving?
      && Served(id, outcome, moments) == LoopEnd(end.store, wk.allowed, wk.phase.crashed, wk.phase.crashed)
    decreases |actions|
  {
    var a := actions[0];
    StepKeepsWellformed(s, a);
    if a == Work(w, Finish(outcome)) {
      FinishedWorker(s, w, id, outcome);
      var rest := FinalizationIsConcluded(Next(s, a), actions[1..], w);
      ConcludedEarlier(Done(id, outcome), Next(s, a).workers[w], rest);
      moments := [Earlier(Done(id, outcome), Next(s, a).workers[w], rest[0])] + rest[1..];
      assert Plain(Done(id, outcome)) == Done(id, outcome);
    } else {
      QuietExecution(s, a, w, id);
      moments := ExecutionIsServed(Next(s, a), actions[1..], w, id, outcome);
    }
  }
}
