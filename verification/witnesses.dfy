/**
 * Concrete executions: one run and two workers, from an empty store. They show that the properties
 * that fail, fail in states that are really reached.
 */
module Witnesses {
  import opened Wrappers
  import opened RunDomain
  import opened RunStore
  import opened RunLife
  import opened WorkerMachine
  import opened Cluster
  import opened ClusterSteps
  import opened ClaimFacts
  import opened Executions
  import opened Exclusion
  import opened Finalization
  import opened CrashTrace

  /** A state that some timely execution without the deprecated cancellation leads to. */
  ghost predicate Attained(s: System) {
    exists s0, actions ::
      && Initial(s0) && Executes(s0, actions) && After(s0, actions) == s
      && TimelyThroughout(s0, actions) && WithoutDeprecated(actions)
  }

  lemma HeadFirst(actions: seq<Action>, more: seq<Action>)
    ensures actions == [] ==> actions + more == more
    ensures actions != [] ==> actions + more == [actions[0]] + (actions[1..] + more)
  {
  }

  lemma {:induction false} ReachesNext(s: System, actions: seq<Action>, mid: System, a: Action)
    requires Executes(s, actions) && After(s, actions) == mid && Enabled(mid, a)
    ensures Executes(s, actions + [a]) && After(s, actions + [a]) == Next(mid, a)
    decreases |actions|
  {
    HeadFirst(actions, [a]);
    if actions == [] {
      assert [a][1..] == [];
    } else {
      var first, rest := actions[0], actions[1..];
      ReachesNext(Next(s, first), rest, mid, a);
      assert ([first] + (rest + [a]))[1..] == rest + [a];
    }
  }

  /** One step more, of whatever kind. */
  lemma ReachableNext(s: System, a: Action)
    requires Reachable(s, true) && Enabled(s, a)
    ensures Reachable(Next(s, a), false)
  {
    var s0, actions :|
      Initial(s0) && Executes(s0, actions) && After(s0, actions) == s && WithoutDeprecated(actions);
    ReachesNext(s0, actions, s, a);
  }

  lemma {:induction false} ExecutesThen(s: System, actions: seq<Action>, mid: System, more: seq<Action>)
    requires Executes(s, actions) && After(s, actions) == mid && Executes(mid, more)
    requires TimelyThroughout(s, actions) && TimelyThroughout(mid, more)
    ensures Executes(s, actions + more) && TimelyThroughout(s, actions + more)
    ensures After(s, actions + more) == After(mid, more)
    decreases |actions|
  {
    HeadFirst(actions, more);
    if actions != [] {
      var a, rest := actions[0], actions[1..];
      ExecutesThen(Next(s, a), rest, mid, more);
      ExecutesOne(s, a, rest + more);
    }
  }

  lemma AttainedThen(s: System, more: seq<Action>)
    requires Attained(s) && Executes(s, more) && TimelyThroughout(s, more) && WithoutDeprecated(more)
    ensures Attained(After(s, more))
  {
    var s0, actions :|
      && Initial(s0) && Executes(s0, actions) && After(s0, actions) == s
      && TimelyThroughout(s0, actions) && WithoutDeprecated(actions);
    ExecutesThen(s0, actions, s, more);
    assert WithoutDeprecated(actions + more);
  }

  lemma AttainedNext(s: System, a: Action)
    requires Attained(s) && Enabled(s, a) && Timely(s, a) && !a.DeprecatedCancel?
    ensures Attained(Next(s, a))
  {
    ExecutesOne(s, a, []);
    AttainedThen(s, [a] + []);
  }

  // ----- one run and two workers

  ghost predicate Picture(s: System, r: Run, wk0: Worker, wk1: Worker, clock: real) {
    && Wellformed(s)
    && s.store.order == [0] && s.store.runs == map[0 := r]
    && s.workers == map[0 := wk0, 1 := wk1]
    && s.clock == clock
  }

  /** An attained state with the one run 0 and the workers 0 and 1. */
  ghost predicate Scene(s: System, r: Run, wk0: Worker, wk1: Worker, clock: real) {
    Attained(s) && Picture(s, r, wk0, wk1, clock)
  }

  predicate InTime(r: Run, w: WorkerId, wk: Worker, clock: real) {
    Guards(r, w, wk) && r.expiration.Some? ==> clock <= r.expiration.value
  }

  lemma PictureTimely(s: System, a: Action, r: Run, wk0: Worker, wk1: Worker, clock: real)
    requires Picture(s, r, wk0, wk1, clock) && Enabled(s, a)
    requires InTime(r, 0, wk0, ClockAfter(s, a)) && InTime(r, 1, wk1, ClockAfter(s, a))
    ensures Timely(s, a)
  {
  }

  lemma PictureNext(s: System, a: Action, r: Run, wk0: Worker, wk1: Worker, clock: real,
                    r': Run, wk0': Worker, wk1': Worker)
    requires Picture(s, r, wk0, wk1, clock) && Enabled(s, a) && !a.CreateRun?
    requires Next(s, a).store.runs[0] == r' && Next(s, a).workers == map[0 := wk0', 1 := wk1']
    ensures Picture(Next(s, a), r', wk0', wk1', ClockAfter(s, a))
  {
    StepKeepsWellformed(s, a);
    assert Next(s, a).store.order[0] in Next(s, a).store.runs;
    OneRun(Next(s, a).store, r');
  }

  lemma OneRun(s: Store, r: Run)
    requires RunStore.Valid(s) && s.order == [0] && 0 in s.runs && s.runs[0] == r
    ensures s.runs == map[0 := r]
  {
    forall id | id in s.runs
      ensures id == 0
    {
      assert id in s.order;
    }
  }

  /** The step from a scene to the next, given what it does to the run and the workers. */
  lemma SceneNext(s: System, a: Action, r: Run, wk0: Worker, wk1: Worker, clock: real,
                  r': Run, wk0': Worker, wk1': Worker)
    requires Scene(s, r, wk0, wk1, clock) && Enabled(s, a) && !a.CreateRun? && !a.DeprecatedCancel?
    requires InTime(r, 0, wk0, ClockAfter(s, a)) && InTime(r, 1, wk1, ClockAfter(s, a))
    requires Next(s, a).store.runs[0] == r' && Next(s, a).workers == map[0 := wk0', 1 := wk1']
    ensures Scene(Next(s, a), r', wk0', wk1', ClockAfter(s, a))
  {
    PictureTimely(s, a, r, wk0, wk1, clock);
    AttainedNext(s, a);
    PictureNext(s, a, r, wk0, wk1, clock, r', wk0', wk1');
  }

  const CREATED := BareRun(0, StatusCode.Created, None, None)
  const ENQUEUED := CREATED.(status := StatusCode.Enqueued)
  const RUNNING := ENQUEUED.(status := StatusCode.Running, claimedWorker := Some(0), expiration := Some(30.0))
  const EXECUTING := FRESH.(phase := Executing(0), ctx := Some(false), beating := true)

  lemma CreatedScene() returns (s: System)
    ensures Scene(s, CREATED, FRESH, FRESH, 0.0)
  {
    var s0 := System(Store([], map[], map[]), 0.0, map[0 := FRESH, 1 := FRESH], map[]);
    assert Initial(s0) && Executes(s0, []) && After(s0, []) == s0 && TimelyThroughout(s0, []) && WithoutDeprecated([]);
    var a := CreateRun(0, "user");
    AttainedNext(s0, a);
    StepKeepsWellformed(s0, a);
    s := Next(s0, a);
  }

  lemma EnqueuedScene() returns (s: System)
    ensures Scene(s, ENQUEUED, FRESH, FRESH, 0.0)
  {
    var s0 := CreatedScene();
    SceneNext(s0, EnqueueRun(0), CREATED, FRESH, FRESH, 0.0, ENQUEUED, FRESH, FRESH);
    s := Next(s0, EnqueueRun(0));
  }

  // ----- intent that is lost, and a log that disagrees

  /** Intent is accepted on a run that is still CREATED, and once it is enqueued it can be claimed. */
  lemma LostIntentIsAttained() returns (s: System)
    ensures Attained(s) && 0 in s.store.runs && s.store.runs[0].cancelRequested
    ensures Enabled(s, EnqueueRun(0)) && Attained(Next(s, EnqueueRun(0)))
    ensures Claimable(Next(s, EnqueueRun(0)).store.runs[0])
  {
    var s0 := CreatedScene();
    var asked := CREATED.(cancelRequested := true);
    SceneNext(s0, RequestCancel(0), CREATED, FRESH, FRESH, 0.0, asked, FRESH, FRESH);
    s := Next(s0, RequestCancel(0));
    SceneNext(s, EnqueueRun(0), asked, FRESH, FRESH, 0.0, ENQUEUED, FRESH, FRESH);
  }

  lemma DeprecatedEntry(s: System, id: RunId)
    requires Enabled(s, DeprecatedCancel(id)) && id in s.store.runs && Permitted(s.store.runs[id], MarkCancel)
    ensures EntryOf(Next(s, DeprecatedCancel(id)).store, id) == EntryAfter(EntryOf(s.store, id), MarkCancel)
  {
    StepTouches(s, DeprecatedCancel(id));
    ApplyAt(s.store, id, MarkCancel, id);
  }

  /** A log and a table that agree, until the deprecated cancellation meets a run with intent. */
  lemma DisagreementIsReached() returns (s: System)
    ensures Reachable(s, false) && 0 in s.store.runs && 0 in s.store.log
    ensures !AgreesFully(EntryOf(s.store, 0))
  {
    var s0 := EnqueuedScene();
    var asked := ENQUEUED.(cancelRequested := true);
    SceneNext(s0, RequestCancel(0), ENQUEUED, FRESH, FRESH, 0.0, asked, FRESH, FRESH);
    var s1 := Next(s0, RequestCancel(0));
    LogDeterminesTable(s1, 0);
    MarkCancelAgreesIff(EntryOf(s1.store, 0));
    DeprecatedEntry(s1, 0);
    ReachableNext(s1, DeprecatedCancel(0));
    s := Next(s1, DeprecatedCancel(0));
  }

  // ----- a run that is executed

  lemma WaitingScene() returns (s: System)
    ensures Scene(s, ENQUEUED, FRESH.(phase := Waiting), FRESH, 0.0)
  {
    var s0 := EnqueuedScene();
    SceneNext(s0, Work(0, Wake), ENQUEUED, FRESH, FRESH, 0.0, ENQUEUED, FRESH.(phase := Waiting), FRESH);
    s := Next(s0, Work(0, Wake));
  }

  lemma ClaimResult(s: Store, t: Readings)
    requires RunStore.Valid(s) && s.order == [0] && s.runs == map[0 := ENQUEUED]
    requires t == Readings(map[0 := 0.0], 0.0)
    ensures Claimed(s, 0, t) == Some(0)
    ensures 0 in AfterClaim(s, 0, t).runs && AfterClaim(s, 0, t).runs[0] == RUNNING
  {
    HandoutIff(s, 0, t, 0);
    ClaimIsComplete(s, 0, t, 0, Handout(s, 0, t), AfterClaim(s, 0, t));
  }

  lemma ClaimNextRun(s: System, a: Action, t: Readings)
    requires Enabled(s, a) && a == Work(0, Claim(t)) && t == Readings(map[0 := 0.0], 0.0)
    requires s.store.order == [0] && s.store.runs == map[0 := ENQUEUED]
    ensures HandsOut(s, a, 0)
    ensures Next(s, a).store.runs[0] == RUNNING
  {
    ClaimResult(s.store, t);
    ClaimNext(s, a);
  }

  lemma TwoWorkers(workers: map<WorkerId, Worker>, wk0: Worker, wk1: Worker, wk: Worker)
    requires workers == map[0 := wk0, 1 := wk1]
    ensures workers[0 := wk] == map[0 := wk, 1 := wk1]
  {
  }

  lemma ClaimNextWorker(s: System, a: Action)
    requires Enabled(s, a) && IsClaim(a) && a.w == 0 && HandsOut(s, a, 0)
    requires s.workers == map[0 := FRESH.(phase := Waiting), 1 := FRESH]
    ensures Next(s, a).workers == map[0 := FRESH.(phase := Holding(0)), 1 := FRESH]
  {
    ClaimNextWorkers(s, a);
    ClaimerHolds(s, a, 0);
    TwoWorkers(s.workers, FRESH.(phase := Waiting), FRESH, FRESH.(phase := Holding(0)));
  }

  lemma ClaimedScene() returns (s: System)
    ensures Scene(s, RUNNING, FRESH.(phase := Holding(0)), FRESH, 0.0)
  {
    var s0 := WaitingScene();
    var t := Readings(map[0 := 0.0], 0.0);
    var a, wk := Work(0, Claim(t)), FRESH.(phase := Waiting);
    ClaimNextRun(s0, a, t);
    ClaimNextWorker(s0, a);
    SceneNext(s0, a, ENQUEUED, wk, FRESH, 0.0, RUNNING, FRESH.(phase := Holding(0)), FRESH);
    s := Next(s0, a);
  }

  /** Worker 0 executes run 0. */
  lemma ExecutingScene() returns (s: System)
    ensures Scene(s, RUNNING, EXECUTING, FRESH, 0.0)
  {
    var s0 := ClaimedScene();
    SceneNext(s0, Work(0, Begin), RUNNING, FRESH.(phase := Holding(0)), FRESH, 0.0, RUNNING, EXECUTING, FRESH);
    s := Next(s0, Work(0, Begin));
  }

  // ----- a consumer loop ends with an exception

  const ASKED := RUNNING.(cancelRequested := true)
  const RENEWED := ASKED.(expiration := Some(31.0))
  const ALARMED := EXECUTING.(ctx := Some(true), beating := false)

  lemma AskedScene() returns (s: System)
    ensures Scene(s, ASKED, EXECUTING, FRESH, 0.0)
  {
    var s0 := ExecutingScene();
    SceneNext(s0, RequestCancel(0), RUNNING, EXECUTING, FRESH, 0.0, ASKED, EXECUTING, FRESH);
    s := Next(s0, RequestCancel(0));
  }

  lemma BeatResult(s: Store)
    requires s.runs.Keys == s.log.Keys && s.runs == map[0 := ASKED]
    ensures BeatStep(s, 0, EXECUTING, 1.0).0.runs == map[0 := RENEWED]
    ensures BeatStep(s, 0, EXECUTING, 1.0).1 == ALARMED
  {
  }

  /** The heartbeat renews the lease for the last time and sees the intent. */
  lemma AlarmedScene() returns (s: System)
    ensures Scene(s, RENEWED, ALARMED, FRESH, 1.0)
  {
    var s0 := AskedScene();
    BeatResult(s0.store);
    SceneNext(s0, Work(0, Beat(1.0)), ASKED, EXECUTING, FRESH, 0.0, RENEWED, ALARMED, FRESH);
    s := Next(s0, Work(0, Beat(1.0)));
  }

  lemma LateScene() returns (s: System)
    ensures Scene(s, RENEWED, ALARMED, FRESH.(phase := Waiting), 100.0)
  {
    var s0 := AlarmedScene();
    SceneNext(s0, Tick(100.0), RENEWED, ALARMED, FRESH, 1.0, RENEWED, ALARMED, FRESH);
    var s1 := Next(s0, Tick(100.0));
    SceneNext(s1, Work(1, Wake), RENEWED, ALARMED, FRESH, 100.0, RENEWED, ALARMED, FRESH.(phase := Waiting));
    s := Next(s1, Work(1, Wake));
  }

  lemma LastStepsAreApi(a: Action, w: WorkerId)
    requires !a.DeprecatedCancel?
    ensures WithoutDeprecated([a] + LastSteps(w))
  {
  }

  lemma LateClaimCrashes(s: System, a: Action)
    requires Picture(s, RENEWED, ALARMED, FRESH.(phase := Waiting), 100.0)
    requires a == Work(1, Claim(Readings(map[0 := 100.0], 100.0)))
    ensures EndsCrashed(s, [a] + LastSteps(0), 0, 0)
  {
    PictureTimely(s, a, RENEWED, ALARMED, FRESH.(phase := Waiting), 100.0);
    SweptExecutionCrashes(s, a, 0, 0);
  }

  lemma CrashedAttained(s: System, actions: seq<Action>, w: WorkerId, id: RunId)
    requires Attained(s) && EndsCrashed(s, actions, w, id) && WithoutDeprecated(actions)
    ensures Attained(After(s, actions))
  {
    AttainedThen(s, actions);
  }

  /**
   * Worker 1 claims at 100, after the lease that ended at 31; the run is cancelled, and both
   * finalizing calls of worker 0 raise. No guarded lease was ever overrun.
   */
  lemma CrashIsAttained() returns (s: System)
    ensures Attained(s) && 0 in s.workers && s.workers[0].phase == Crashed(0)
  {
    var s0 := LateScene();
    var a := Work(1, Claim(Readings(map[0 := 100.0], 100.0)));
    LateClaimCrashes(s0, a);
    LastStepsAreApi(a, 0);
    CrashedAttained(s0, [a] + LastSteps(0), 0, 0);
    s := After(s0, [a] + LastSteps(0));
  }

  // ----- a shutdown ends a run for good

  const INTERRUPTED := EXECUTING.(allowed := false, ctx := Some(true), interrupted := {0})

  lemma InterruptedScene() returns (s: System)
    ensures Scene(s, RUNNING, INTERRUPTED, FRESH, 0.0)
  {
    var s0 := ExecutingScene();
    assert EXECUTING.interrupted + {0} == {0};
    SceneNext(s0, Work(0, Shutdown), RUNNING, EXECUTING, FRESH, 0.0, RUNNING, INTERRUPTED, FRESH);
    s := Next(s0, Work(0, Shutdown));
  }

  lemma FinishedScene(outcome: ExecutionOutcome, wk: Worker) returns (s: System)
    requires wk == INTERRUPTED.(phase := AfterExecution(0, outcome))
    ensures Scene(s, RUNNING, wk, FRESH, 0.0)
  {
    var s0 := InterruptedScene();
    SceneNext(s0, Work(0, Finish(outcome)), RUNNING, INTERRUPTED, FRESH, 0.0, RUNNING, wk, FRESH);
    s := Next(s0, Work(0, Finish(outcome)));
  }

  lemma InterruptedEnds(s: Store, wk: Worker, outcome: ExecutionOutcome)
    requires s.runs.Keys == s.log.Keys && s.runs == map[0 := RUNNING]
    requires wk == INTERRUPTED.(phase := AfterExecution(0, outcome))
    ensures 0 in FinalizeStep(s, wk).0.runs && !FinalizeStep(s, wk).0.runs[0].cancelRequested
    ensures FinalizeStep(s, wk).0.runs[0].status == if outcome.Normal? then StatusCode.Cancelled else Failed
  {
    FinalizeRunning(s, wk, 0);
    FinalizeTouches(s, 0, wk);
  }

  /** After a shutdown the run ends CANCELLED if the executor returns and FAILED if it raises, with no intent. */
  lemma ShutdownEndIsAttained(outcome: ExecutionOutcome) returns (s: System)
    ensures Attained(s) && 0 in s.store.runs && !s.store.runs[0].cancelRequested
    ensures s.store.runs[0].status == if outcome.Normal? then StatusCode.Cancelled else Failed
  {
    var wk := INTERRUPTED.(phase := AfterExecution(0, outcome));
    var s0 := FinishedScene(outcome, wk);
    PictureTimely(s0, Work(0, Finalize), RUNNING, wk, FRESH, 0.0);
    AttainedNext(s0, Work(0, Finalize));
    s := Next(s0, Work(0, Finalize));
    InterruptedEnds(s0.store, wk, outcome);
  }
}
