/** How an execution that keeps the timing assumption ends a consumer loop with an exception. */
module CrashTrace {
  import opened Wrappers
  import opened RunDomain
  import opened RunStore
  import opened WorkerMachine
  import opened Cluster
  import opened ClusterSteps
  import opened ClaimFacts
  import opened Exclusion

  /** No guarded lease is over yet. */
  ghost predicate OnTime(s: System) {
    forall w, id | w in s.workers && Busy(s.workers[w].phase) == Some(id) && id in s.store.runs ::
      Guards(s.store.runs[id], w, s.workers[w]) && s.store.runs[id].expiration.Some? ==>
        s.clock <= s.store.runs[id].expiration.value
  }

  /** A worker whose run has been cancelled underneath. */
  ghost predicate Stage(s: System, w: WorkerId, id: RunId, wk: Worker) {
    && Wellformed(s) && OnTime(s)
    && w in s.workers && s.workers[w] == wk
    && id in s.store.runs && s.store.runs[id].status == StatusCode.Cancelled
  }

  /** On time, a step that does not move the clock is timely. */
  lemma OnTimeIsTimely(s: System, a: Action)
    requires Enabled(s, a) && OnTime(s) && ClockAfter(s, a) == s.clock
    ensures Timely(s, a)
  {
  }

  /** A worker whose run is not running guards nothing. */
  lemma StageOnTime(s: System, w: WorkerId, id: RunId, wk': Worker, s': System)
    requires OnTime(s) && id in s.store.runs && s.store.runs[id].status == StatusCode.Cancelled
    requires s'.store == s.store && s'.clock == s.clock && s'.workers == s.workers[w := wk']
    requires Busy(wk'.phase).Some? ==> Busy(wk'.phase) == Some(id)
    ensures OnTime(s')
  {
  }

  /** A step of that worker that leaves the store and the clock alone. */
  lemma StageStep(s: System, w: WorkerId, id: RunId, wk: Worker, act: Act, wk': Worker, s': System)
    requires Stage(s, w, id, wk) && Possible(s.store, s.clock, wk, act)
    requires act.Finish? || act.Finalize? || act.Leave?
    requires WorkerStep(s.store, s.clock, w, wk, act) == (s.store, wk')
    requires Busy(wk'.phase).Some? ==> Busy(wk'.phase) == Some(id)
    requires Enabled(s, Work(w, act)) && s' == Next(s, Work(w, act))
    ensures Timely(s, Work(w, act)) && Stage(s', w, id, wk')
  {
    OnTimeIsTimely(s, Work(w, act));
    StepKeepsWellformed(s, Work(w, act));
    StageOnTime(s, w, id, wk', s');
  }

  lemma EffectOnTime(r: Run, r': Run, w: WorkerId, now: real, grant: real, taken: bool, v: WorkerId)
    requires Effect(r, r', w, now, grant, taken) && (v == w ==> taken)
    requires r.status == StatusCode.Running && r.claimedWorker == Some(v) && r.expiration.Some? && v != w ==>
               grant <= r.expiration.value
    ensures r'.status == StatusCode.Running && r'.claimedWorker == Some(v) && r'.expiration.Some? ==>
              grant <= r'.expiration.value
  {
  }

  /** A timely claim leaves every guarded lease on time. */
  lemma ClaimOnTimeAt(s: System, a: Action, v: WorkerId, id: RunId)
    requires Enabled(s, a) && IsClaim(a) && Timely(s, a) && v in s.workers
    requires id in s.store.runs && Busy(Next(s, a).workers[v].phase) == Some(id)
    requires Guards(Next(s, a).store.runs[id], v, Next(s, a).workers[v]) && Next(s, a).store.runs[id].expiration.Some?
    ensures Next(s, a).clock <= Next(s, a).store.runs[id].expiration.value
  {
    StepEffect(s, a, id);
    ClaimerBusy(s, a, id);
    ClaimNextWorkers(s, a);
    var r, t := s.store.runs[id], a.act.t;
    EffectOnTime(r, Next(s, a).store.runs[id], a.w, t.checks[id], t.grant, HandsOut(s, a, id), v);
  }

  lemma ClaimKeepsOnTime(s: System, a: Action)
    requires Enabled(s, a) && IsClaim(a) && Timely(s, a)
    ensures OnTime(Next(s, a))
  {
    var s' := Next(s, a);
    StoreAfterValid(s, a);
    forall w, id | w in s'.workers && Busy(s'.workers[w].phase) == Some(id) && id in s'.store.runs
      ensures Guards(s'.store.runs[id], w, s'.workers[w]) && s'.store.runs[id].expiration.Some? ==>
                s'.clock <= s'.store.runs[id].expiration.value
    {
      if Guards(s'.store.runs[id], w, s'.workers[w]) && s'.store.runs[id].expiration.Some? {
        ClaimOnTimeAt(s, a, w, id);
      }
    }
  }

  lemma ExecutesOne(s: System, a: Action, rest: seq<Action>)
    requires Enabled(s, a) && Executes(Next(s, a), rest)
    ensures Executes(s, [a] + rest) && After(s, [a] + rest) == After(Next(s, a), rest)
    ensures Timely(s, a) && TimelyThroughout(Next(s, a), rest) ==> TimelyThroughout(s, [a] + rest)
  {
    assert ([a] + rest)[1..] == rest;
  }

  // ----- what is left of the execution once the run is cancelled: both finalizing calls raise

  function LeaveStep(w: WorkerId): seq<Action> {
    [Work(w, Leave)] + []
  }

  function FailStep(w: WorkerId): seq<Action> {
    [Work(w, Finalize)] + LeaveStep(w)
  }

  function FinalSteps(w: WorkerId): seq<Action> {
    [Work(w, Finalize)] + FailStep(w)
  }

  function LastSteps(w: WorkerId): seq<Action> {
    [Work(w, Finish(Normal))] + FinalSteps(w)
  }

  /** The actions execute in time and leave the worker's loop ended by an exception. */
  ghost predicate EndsCrashed(s: System, actions: seq<Action>, w: WorkerId, id: RunId) {
    && Executes(s, actions) && TimelyThroughout(s, actions)
    && w in After(s, actions).workers && After(s, actions).workers[w].phase == Crashed(id)
  }

  lemma OneMoreStep(s: System, a: Action, rest: seq<Action>, w: WorkerId, id: RunId)
    requires Enabled(s, a) && Timely(s, a) && EndsCrashed(Next(s, a), rest, w, id)
    ensures EndsCrashed(s, [a] + rest, w, id)
  {
    ExecutesOne(s, a, rest);
  }

  lemma LeaveCrashes(s: System, w: WorkerId, id: RunId, wk: Worker)
    requires Stage(s, w, id, wk) && wk.phase == Leaving(id, true)
    ensures EndsCrashed(s, LeaveStep(w), w, id)
  {
    var s' := Next(s, Work(w, Leave));
    StageStep(s, w, id, wk, Leave, wk.(phase := Crashed(id), beating := false), s');
    OneMoreStep(s, Work(w, Leave), [], w, id);
  }

  lemma FailCrashes(s: System, w: WorkerId, id: RunId, wk: Worker, fault: Fault)
    requires Stage(s, w, id, wk) && wk.phase == Failing(id, fault)
    ensures EndsCrashed(s, FailStep(w), w, id)
  {
    var s' := Next(s, Work(w, Finalize));
    StageStep(s, w, id, wk, Finalize, Over(wk, id, true), s');
    LeaveCrashes(s', w, id, Over(wk, id, true));
    OneMoreStep(s, Work(w, Finalize), LeaveStep(w), w, id);
  }

  lemma FinalStepsCrash(s: System, w: WorkerId, id: RunId, wk: Worker)
    requires Stage(s, w, id, wk) && wk.phase == Returned(id) && wk.ctx == Some(true)
    ensures EndsCrashed(s, FinalSteps(w), w, id)
  {
    var refused := StoreFault(InvalidTransition(StatusCode.Cancelled, StatusCode.Cancelled));
    var s' := Next(s, Work(w, Finalize));
    StageStep(s, w, id, wk, Finalize, wk.(phase := Failing(id, refused)), s');
    FailCrashes(s', w, id, wk.(phase := Failing(id, refused)), refused);
    OneMoreStep(s, Work(w, Finalize), FailStep(w), w, id);
  }

  lemma LastStepsCrash(s: System, w: WorkerId, id: RunId, wk: Worker)
    requires Stage(s, w, id, wk) && wk.phase == Executing(id) && wk.ctx == Some(true)
    ensures EndsCrashed(s, LastSteps(w), w, id)
  {
    var s' := Next(s, Work(w, Finish(Normal)));
    StageStep(s, w, id, wk, Finish(Normal), wk.(phase := Returned(id)), s');
    FinalStepsCrash(s', w, id, wk.(phase := Returned(id)));
    OneMoreStep(s, Work(w, Finish(Normal)), FinalSteps(w), w, id);
  }

  lemma SweptStage(s: System, a: Action, w: WorkerId, i: nat)
    requires Enabled(s, a) && IsClaim(a) && Timely(s, a) && w in s.workers && w != a.w
    requires s.store.runs.Keys <= a.act.t.checks.Keys
    requires i < |s.store.order| && i <= Handout(s.store, a.w, a.act.t)
    requires s.store.runs[s.store.order[i]].cancelRequested
    requires Lapsed(s.store.runs[s.store.order[i]], a.act.t.checks[s.store.order[i]])
    ensures Stage(Next(s, a), w, s.store.order[i], s.workers[w])
  {
    StepKeepsWellformed(s, a);
    ClaimKeepsOnTime(s, a);
    ClaimNext(s, a);
    ClaimNextWorkers(s, a);
    ClaimIsComplete(s.store, a.w, a.act.t, i, Handout(s.store, a.w, a.act.t), Next(s, a).store);
  }

  /**
   * A worker that has seen the intent no longer renews its lease. Once the lease is over, a claim
   * of another worker that reaches the run cancels it; when the executor then returns normally,
   * `set_cancelled` raises, `set_failed` raises again, and the consumer loop ends with an exception,
   * all of it within the timing assumption.
   */
  lemma SweptExecutionCrashes(s: System, a: Action, w: WorkerId, i: nat)
    requires Enabled(s, a) && IsClaim(a) && Timely(s, a) && w in s.workers && w != a.w
    requires s.store.runs.Keys <= a.act.t.checks.Keys
    requires i < |s.store.order| && i <= Handout(s.store, a.w, a.act.t)
    requires s.store.runs[s.store.order[i]].cancelRequested
    requires Lapsed(s.store.runs[s.store.order[i]], a.act.t.checks[s.store.order[i]])
    requires s.workers[w].phase == Executing(s.store.order[i]) && s.workers[w].ctx == Some(true)
    ensures EndsCrashed(s, [a] + LastSteps(w), w, s.store.order[i])
  {
    SweptStage(s, a, w, i);
    LastStepsCrash(Next(s, a), w, s.store.order[i], s.workers[w]);
    OneMoreStep(s, a, LastSteps(w), w, s.store.order[i]);
  }
}
