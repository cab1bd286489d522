/**
 * The worker's own code in its own form: execution context, lease scope and consumer loop. Between
 * any two store calls the other parties may turn the shared state into any other valid one; each
 * method is proved to do what the program-counter machine does under the same interference.
 */
module Consumer {
  import opened Wrappers
  import opened RunDomain
  import opened EventLog
  import opened RunStore
  import opened Records
  import opened ProcessingStore
  import opened WorkerMachine
  import opened Finalization

  /**
   * What the other parties have made of the shared state by the time of a store call, and whether
   * the heartbeat task has cancelled the context or a shutdown has arrived meanwhile.
   */
  datatype Moment = Moment(store: Store, cancelled: bool, shutdown: bool)

  // ----- execution context

  class RunExecutionContext {
    const runId: RunId
    const eventLog: InMemoryRunEventLog
    var cancelled: bool

    constructor (runId: RunId, eventLog: InMemoryRunEventLog)
      ensures this.runId == runId && this.eventLog == eventLog && !cancelled
    {
      this.runId, this.eventLog, cancelled := runId, eventLog, false;
    }

    method Cancel()
      modifies this
      ensures cancelled
    {
      cancelled := true;
    }

    predicate IsCancelled()
      reads this
    {
      cancelled
    }

    /** Events of the executor carry the id of its run. */
    method EmitEvent(name: string) returns (r: Result<RunEvent, LogError>)
      requires eventLog.Valid()
      modifies eventLog
      ensures eventLog.Valid()
      ensures r.Failure? <==> runId !in old(eventLog.streams)
      ensures r.Failure? ==> eventLog.streams == old(eventLog.streams)
      ensures r.Success? ==> r.value.runId == runId && r.value.kind == ExecutorEvent(name)
      ensures r.Success? ==>
        eventLog.streams == old(eventLog.streams)[runId := old(eventLog.streams)[runId] + [r.value]]
      ensures r.Success? ==>
        eventLog.streams == old(eventLog.streams)
          [runId := Appended(runId, old(eventLog.streams)[runId], ExecutorEvent(name))]
    {
      r := eventLog.Append(runId, ExecutorEvent(name));
    }
  }

  /** The other parties' turn. */
  method Interfere(store: InMemoryRunProcessingStore, to: Store)
    requires RunStore.Valid(to)
    modifies store.table, store.events
    ensures store.Valid() && store.State() == to
  {
    store.table.order, store.table.runs := to.order, to.runs;
    store.events.streams := to.log;
    store.events.nextSequenceNr := map id | id in to.log :: |to.log[id]| + 1;
  }

  // ----- lease scope

  ghost predicate ValidWakes(wakes: seq<(Store, real)>) {
    forall i | 0 <= i < |wakes| :: RunStore.Valid(wakes[i].0)
  }

  /** The heartbeat loop of the machine, one wake-up after the other, until it stops beating. */
  ghost function Beats(s: Store, w: WorkerId, wk: Worker, wakes: seq<(Store, real)>): (Store, Worker)
    requires Scope(wk.phase).Some?
    requires s.runs.Keys == s.log.Keys && ValidWakes(wakes)
    decreases |wakes|
  {
    if wakes == [] || !wk.beating then (s, wk)
    else
      assert RunStore.Valid(wakes[0].0);
      var turn := BeatStep(wakes[0].0, w, wk, wakes[0].1);
      BeatStepKeeps(wakes[0].0, w, wk, wakes[0].1);
      Beats(turn.0, w, turn.1, wakes[1..])
  }

  lemma BeatStepKeeps(s: Store, w: WorkerId, wk: Worker, now: real)
    requires s.runs.Keys == s.log.Keys && Scope(wk.phase).Some?
    ensures BeatStep(s, w, wk, now).0.runs.Keys == BeatStep(s, w, wk, now).0.log.Keys
    ensures BeatStep(s, w, wk, now).1.phase == wk.phase
  {
  }

  /** When the heartbeat stops, and what it does to the context; it goes on even if the run is over. */
  lemma BeatMeans(s: Store, w: WorkerId, wk: Worker, now: real, id: RunId)
    requires RunStore.Valid(s) && wk.phase == Executing(id) && wk.ctx.Some? && wk.beating
    ensures
      var lost := id in s.runs && s.runs[id].status == StatusCode.Running && s.runs[id].claimedWorker != Some(w);
      var intent := id in s.runs && s.runs[id].cancelRequested && !lost;
      BeatStep(s, w, wk, now).1 ==
      if intent then wk.(ctx := Some(true), beating := false)
      else if lost then wk.(beating := false)
      else wk
  {
  }

  /** The loop takes turns, each on the store it finds, up to and including the first that stops it. */
  lemma {:induction false} BeatsGoOn(s: Store, w: WorkerId, wk: Worker, wakes: seq<(Store, real)>) returns (n: nat)
    requires wk.phase.Executing? && wk.ctx.Some? && wk.beating && s.runs.Keys == s.log.Keys && ValidWakes(wakes)
    ensures n <= |wakes| && (n == 0 <==> wakes == [])
    ensures forall i | 0 <= i < |wakes| :: RunStore.Valid(wakes[i].0)
    ensures forall i | 0 <= i < n - 1 :: BeatStep(wakes[i].0, w, wk, wakes[i].1).1 == wk
    ensures 0 < n < |wakes| ==> !BeatStep(wakes[n - 1].0, w, wk, wakes[n - 1].1).1.beating
    ensures Beats(s, w, wk, wakes) == if n == 0 then (s, wk) else BeatStep(wakes[n - 1].0, w, wk, wakes[n - 1].1)
    decreases |wakes|
  {
    n := 0;
    if wakes != [] {
      assert RunStore.Valid(wakes[0].0);
      var turn := BeatStep(wakes[0].0, w, wk, wakes[0].1);
      BeatStepKeeps(wakes[0].0, w, wk, wakes[0].1);
      BeatMeans(wakes[0].0, w, wk, wakes[0].1, wk.phase.id);
      n := 1;
      if turn.1.beating {
        assert forall i | 0 <= i < |wakes[1..]| :: wakes[1..][i] == wakes[i + 1];
        assert ValidWakes(wakes[1..]);
        var more := BeatsGoOn(turn.0, w, wk, wakes[1..]);
        n := 1 + more;
      }
    }
  }

  /** A turn in terms of the outcome of its store call. */
  lemma TurnOf(s: Store, w: WorkerId, wk: Worker, now: real, o: Outcome<Run>)
    requires s.runs.Keys == s.log.Keys && wk.phase.Executing? && wk.ctx.Some?
    requires o == RunStore.Heartbeat(s, wk.phase.id, w, now)
    ensures BeatStep(s, w, wk, now).0 == o.store
    ensures BeatStep(s, w, wk, now).1 ==
            if o.result.Success? && o.result.value.cancelRequested then wk.(ctx := Some(true), beating := false)
            else if o.result.Failure? && o.result.error.LeaseLost? then wk.(beating := false)
            else wk
  {
  }

  lemma BeatsOnce(s: Store, w: WorkerId, wk: Worker, wakes: seq<(Store, real)>, i: nat, turn: (Store, Worker))
    requires Scope(wk.phase).Some? && wk.beating && s.runs.Keys == s.log.Keys
    requires i < |wakes| && RunStore.Valid(wakes[i].0) && ValidWakes(wakes)
    requires turn == BeatStep(wakes[i].0, w, wk, wakes[i].1)
    ensures turn.0.runs.Keys == turn.0.log.Keys && turn.1.phase == wk.phase
    ensures Beats(s, w, wk, wakes[i..]) == Beats(turn.0, w, turn.1, wakes[i + 1..])
  {
    BeatStepKeeps(wakes[i].0, w, wk, wakes[i].1);
    assert wakes[i..][0] == wakes[i] && wakes[i..][1..] == wakes[i + 1..];
  }

  class RunLeaseScope {
    const workerId: WorkerId
    const runId: RunId
    const store: InMemoryRunProcessingStore
    const executionCtx: RunExecutionContext
    var running: bool
    var beating: bool

    constructor (workerId: WorkerId, runId: RunId, store: InMemoryRunProcessingStore, ctx: RunExecutionContext)
      ensures this.workerId == workerId && this.runId == runId && this.store == store && executionCtx == ctx
      ensures !running && !beating
    {
      this.workerId, this.runId, this.store, executionCtx := workerId, runId, store, ctx;
      running, beating := false, false;
    }

    /** The machine's worker while it executes in this scope. */
    ghost function View(): Worker
      reads this, executionCtx
    {
      Worker(Executing(runId), true, Some(executionCtx.cancelled), beating, {})
    }

    method Enter()
      modifies this
      ensures running && beating
    {
      running, beating := true, true;
    }

    method Exit()
      modifies this
      ensures !running && !beating
    {
      running := false;
      beating := false;
    }

    /** One turn of the heartbeat loop, after its sleep. */
    method Wake(s: Store, now: real)
      requires beating && RunStore.Valid(s)
      modifies `beating, executionCtx, store.table, store.events
      ensures store.Valid()
      ensures (store.State(), View()) == BeatStep(s, workerId, old(View()), now)
    {
      Interfere(store, s);
      var r := store.Heartbeat(runId, workerId, now);
      TurnOf(s, workerId, View(), now, Outcome(store.State(), r));
      if r.Success? && r.value.cancelRequested {
        executionCtx.Cancel();
        beating := false;
      } else if r.Failure? && r.error.LeaseLost? {
        beating := false;
      }
    }

    /** `heartbeat_loop`, for as many turns as there are before the scope is left. */
    method HeartbeatLoop(wakes: seq<(Store, real)>)
      requires store.Valid() && running && beating
      requires ValidWakes(wakes)
      modifies `beating, executionCtx, store.table, store.events
      ensures store.Valid()
      ensures (store.State(), View()) == Beats(old(store.State()), workerId, old(View()), wakes)
    {
      var i := 0;
      while running && beating && i < |wakes|
        invariant i <= |wakes| && store.Valid()
        invariant Beats(store.State(), workerId, View(), wakes[i..]) ==
                          Beats(old(store.State()), workerId, old(View()), wakes)
        decreases |wakes| - i
      {
        assert RunStore.Valid(wakes[i].0);
        BeatsOnce(store.State(), workerId, View(), wakes, i, BeatStep(wakes[i].0, workerId, View(), wakes[i].1));
        Wake(wakes[i].0, wakes[i].1);
        i := i + 1;
      }
    }
  }

  // ----- consumer

  ghost predicate ValidMoments(moments: seq<Moment>) {
    forall i | 0 <= i < |moments| :: RunStore.Valid(moments[i].store)
  }

  /** The worker as a store call finds it after a moment has passed. */
  function Seen(wk: Worker, m: Moment): Worker
    requires wk.ctx.Some?
  {
    wk.(ctx := Some(wk.ctx.value || m.cancelled || m.shutdown), allowed := wk.allowed && !m.shutdown)
  }

  /**
   * The finalization of the machine from a given phase: each store call finds the shared state of
   * its moment, and the context is cancelled once it has been cancelled at any moment.
   */
  ghost function Concluded(wk: Worker, moments: seq<Moment>): (end: (Store, Worker))
    requires InFinalization(wk.phase) && wk.ctx.Some?
    requires |moments| >= CallsLeft(wk.phase) && ValidMoments(moments)
    ensures end.1.phase.Leaving?
    decreases CallsLeft(wk.phase)
  {
    assert RunStore.Valid(moments[0].store);
    var now := Seen(wk, moments[0]);
    var turn := FinalizeStep(moments[0].store, now);
    FinalizationTerminates(moments[0].store, now);
    if turn.1.phase.Leaving? then turn else Concluded(turn.1, moments[1..])
  }

  /** A call that raises leads to the except branch, one that succeeds ends the execution. */
  lemma ConcludedCall(wk: Worker, moments: seq<Moment>, o: Outcome<()>)
    requires wk.ctx.Some? && ValidMoments(moments) && |moments| >= CallsLeft(wk.phase)
    requires
      || (wk.phase.Returned? && Seen(wk, moments[0]).ctx.value && o == SetCancelled(moments[0].store, wk.phase.id))
      || (wk.phase.Cancelling? && o == SetCancelled(moments[0].store, wk.phase.id))
      || (wk.phase.Succeeding? && o == SetSucceeded(moments[0].store, wk.phase.id, DONE))
    ensures o.result.Success? ==> Concluded(wk, moments) == (o.store, Over(Seen(wk, moments[0]), wk.phase.id, false))
    ensures o.result.Failure? ==>
      Concluded(wk, moments) ==
        Concluded(Seen(wk, moments[0]).(phase := Failing(wk.phase.id, StoreFault(o.result.error))), moments[1..])
  {
    assert RunStore.Valid(moments[0].store);
  }

  lemma ConcludedExcept(wk: Worker, moments: seq<Moment>)
    requires wk.ctx.Some? && ValidMoments(moments) && |moments| >= 1 && wk.phase.Failing?
    ensures
      var o := SetFailed(moments[0].store, wk.phase.id, wk.phase.fault);
      Concluded(wk, moments) == (o.store, Over(Seen(wk, moments[0]), wk.phase.id, o.result.Failure?))
  {
    assert RunStore.Valid(moments[0].store);
  }

  lemma ConcludedRead(wk: Worker, moments: seq<Moment>)
    requires wk.ctx.Some? && ValidMoments(moments) && |moments| >= 3 && wk.phase.Returned?
    requires !Seen(wk, moments[0]).ctx.value
    ensures
      var status := GetStatus(moments[0].store, wk.phase.id);
      var id := wk.phase.id;
      Concluded(wk, moments) ==
        Concluded(Seen(wk, moments[0]).(phase :=
                    if status.Failure? then Failing(id, StoreFault(status.error))
                    else if status.value.cancelRequested then Cancelling(id)
                    else Succeeding(id)),
                  moments[1..])
  {
    assert RunStore.Valid(moments[0].store);
  }

  /** A shutdown at the first moment stops further claims, and nothing but a shutdown does. */
  lemma {:induction false} AllowedUntilShutdown(wk: Worker, moments: seq<Moment>)
    requires InFinalization(wk.phase) && wk.ctx.Some?
    requires |moments| >= CallsLeft(wk.phase) && ValidMoments(moments)
    ensures moments[0].shutdown ==> !Concluded(wk, moments).1.allowed
    ensures !wk.allowed ==> !Concluded(wk, moments).1.allowed
    ensures wk.allowed && (forall i | 0 <= i < |moments| :: !moments[i].shutdown) ==> Concluded(wk, moments).1.allowed
    decreases CallsLeft(wk.phase)
  {
    assert RunStore.Valid(moments[0].store);
    var now := Seen(wk, moments[0]);
    var turn := FinalizeStep(moments[0].store, now);
    FinalizationTerminates(moments[0].store, now);
    if !turn.1.phase.Leaving? {
      AllowedUntilShutdown(turn.1, moments[1..]);
    }
  }

  // ----- when an exception leaves execute_run

  predicate NotRunning(s: Store, id: RunId) {
    id !in s.runs || s.runs[id].status != StatusCode.Running
  }

  predicate NotCancellable(s: Store, id: RunId) {
    id !in s.runs || s.runs[id].status !in {StatusCode.Created, StatusCode.Enqueued, StatusCode.Running}
  }

  /**
   * The last store call of the try block is refused, and the run is not running when the except
   * branch records the failure. Which call it is depends on what the earlier moments have shown.
   */
  predicate Raises(id: RunId, outcome: ExecutionOutcome, wk: Worker, moments: seq<Moment>)
    requires wk.ctx.Some? && |moments| >= 3
  {
    if outcome.Raised? then NotRunning(moments[0].store, id)
    else if Seen(wk, moments[0]).ctx.value then
      NotCancellable(moments[0].store, id) && NotRunning(moments[1].store, id)
    else if id !in moments[0].store.runs then NotRunning(moments[1].store, id)
    else if moments[0].store.runs[id].cancelRequested then
      NotCancellable(moments[1].store, id) && NotRunning(moments[2].store, id)
    else NotRunning(moments[1].store, id) && NotRunning(moments[2].store, id)
  }

  lemma FailingRaisesIff(wk: Worker, moments: seq<Moment>)
    requires wk.ctx.Some? && ValidMoments(moments) && |moments| >= 1 && wk.phase.Failing?
    ensures Concluded(wk, moments).1.phase.crashed <==> NotRunning(moments[0].store, wk.phase.id)
  {
    ConcludedExcept(wk, moments);
  }

  lemma LastCallRaisesIff(wk: Worker, moments: seq<Moment>)
    requires wk.ctx.Some? && ValidMoments(moments) && |moments| >= 2 && (wk.phase.Cancelling? || wk.phase.Succeeding?)
    ensures Concluded(wk, moments).1.phase.crashed <==>
      && (if wk.phase.Cancelling? then NotCancellable(moments[0].store, wk.phase.id)
          else NotRunning(moments[0].store, wk.phase.id))
      && NotRunning(moments[1].store, wk.phase.id)
  {
    assert RunStore.Valid(moments[0].store);
    var id := wk.phase.id;
    var o := if wk.phase.Cancelling? then SetCancelled(moments[0].store, id)
          else SetSucceeded(moments[0].store, id, DONE);
    ConcludedCall(wk, moments, o);
    if o.result.Failure? {
      FailingRaisesIff(Seen(wk, moments[0]).(phase := Failing(id, StoreFault(o.result.error))), moments[1..]);
    }
  }

  /** Exactly when an exception leaves `execute_run`, whatever the other parties do. */
  lemma RaisesIff(id: RunId, outcome: ExecutionOutcome, wk: Worker, moments: seq<Moment>)
    requires wk.ctx.Some? && ValidMoments(moments) && |moments| >= 3 && wk.phase == AfterExecution(id, outcome)
    ensures Concluded(wk, moments).1.phase.crashed <==> Raises(id, outcome, wk, moments)
  {
    assert RunStore.Valid(moments[0].store);
    var now := Seen(wk, moments[0]);
    if outcome.Raised? {
      FailingRaisesIff(wk, moments);
    } else if now.ctx.value {
      var o := SetCancelled(moments[0].store, id);
      ConcludedCall(wk, moments, o);
      if o.result.Failure? {
        FailingRaisesIff(now.(phase := Failing(id, StoreFault(o.result.error))), moments[1..]);
      }
    } else {
      ConcludedRead(wk, moments);
      var status := GetStatus(moments[0].store, id);
      if status.Failure? {
        FailingRaisesIff(now.(phase := Failing(id, StoreFault(status.error))), moments[1..]);
      } else {
        LastCallRaisesIff(now.(phase := if status.value.cancelRequested then Cancelling(id) else Succeeding(id)),
                          moments[1..]);
      }
    }
  }

  // ----- what execute_run writes

  /** A running run, ended with the given status, result and error. */
  function Ended(r: Run, status: StatusCode, result: Option<string>, error: Option<Fault>): Run {
    Run(r.id, status, result, error, r.claimedWorker, r.expiration, r.retryCount, r.cancelRequested)
  }

  /** The call at a moment ends the run with its outcome, if the store allows it then. */
  ghost predicate WritesOutcome(s: Store, end: Store, id: RunId, status: StatusCode, fault: Option<Fault>)
    requires RunStore.Valid(s)
  {
    id in s.runs ==>
      var r := s.runs[id];
      match status
      case Succeeded =>
        r.status == StatusCode.Running ==> Writes(s, end, id, Ended(r, Succeeded, Some("ok"), r.error), RunSucceeded)
      case Failed =>
        r.status == StatusCode.Running && fault.Some? ==>
          Writes(s, end, id, Ended(r, Failed, r.result, fault), RunFailed(fault.value))
      case _ =>
        r.status in {StatusCode.Created, StatusCode.Enqueued, StatusCode.Running} ==>
          Writes(s, end, id, Ended(r, StatusCode.Cancelled, r.result, r.error), RunCancelled)
  }

  lemma FailingWrites(wk: Worker, moments: seq<Moment>, id: RunId, fault: Fault)
    requires wk.ctx.Some? && ValidMoments(moments) && |moments| >= 1 && wk.phase == Failing(id, fault)
    ensures RunStore.Valid(moments[0].store)
    ensures WritesOutcome(moments[0].store, Concluded(wk, moments).0, id, Failed, Some(fault))
  {
    assert RunStore.Valid(moments[0].store);
    ConcludedExcept(wk, moments);
    if id in moments[0].store.runs {
      FinalWrites(moments[0].store, id, "ok", fault);
    }
  }

  /** The last call of the try block ends the run, or is refused, and the except branch records why. */
  ghost predicate WritesEnd(s: Store, next: Store, end: Store, id: RunId, status: StatusCode)
    requires RunStore.Valid(s) && RunStore.Valid(next)
  {
    if id !in s.runs then WritesOutcome(next, end, id, Failed, Some(StoreFault(MissingKey(id))))
    else
      var from := s.runs[id].status;
      if from.Running? || (status.Cancelled? && (from.Created? || from.Enqueued?)) then
        WritesOutcome(s, end, id, status, None)
      else
        WritesOutcome(next, end, id, Failed, Some(StoreFault(InvalidTransition(from, status))))
  }

  /** The phases in which the context's own flag, or the intent that was read, decides the call. */
  predicate Calls(wk: Worker, m: Moment, id: RunId, status: StatusCode) {
    || (wk.phase == Returned(id) && status.Cancelled? && wk.ctx.Some? && Seen(wk, m).ctx == Some(true))
    || (wk.phase == Cancelling(id) && status.Cancelled?)
    || (wk.phase == Succeeding(id) && status.Succeeded?)
  }

  lemma LastCallWrites(wk: Worker, moments: seq<Moment>, id: RunId, status: StatusCode)
    requires wk.ctx.Some? && ValidMoments(moments) && |moments| >= 2 && |moments| >= CallsLeft(wk.phase)
    requires Calls(wk, moments[0], id, status)
    ensures RunStore.Valid(moments[0].store) && RunStore.Valid(moments[1].store)
    ensures WritesEnd(moments[0].store, moments[1].store, Concluded(wk, moments).0, id, status)
  {
    assert RunStore.Valid(moments[0].store) && RunStore.Valid(moments[1].store);
    var s := moments[0].store;
    var o := if status.Cancelled? then SetCancelled(s, id) else SetSucceeded(s, id, DONE);
    ConcludedCall(wk, moments, o);
    if o.result.Failure? {
      var fault := StoreFault(o.result.error);
      FailingWrites(Seen(wk, moments[0]).(phase := Failing(id, fault)), moments[1..], id, fault);
    } else {
      FinalWrites(s, id, "ok", ExecutorFault(""));
    }
  }

  /**
   * The record and the event `execute_run` leaves behind: the text of the executor's exception; a
   * cancellation, if the context is cancelled or intent is read; the result "ok" otherwise; and what
   * the store raised, if a call of the try block is refused.
   */
  ghost predicate Wrote(id: RunId, outcome: ExecutionOutcome, cancelled: bool, moments: seq<Moment>, end: Store)
    requires |moments| >= 3 && forall i | 0 <= i < |moments| :: RunStore.Valid(moments[i].store)
  {
    var s0, s1, s2 := moments[0].store, moments[1].store, moments[2].store;
    match outcome
    case Raised(message) => WritesOutcome(s0, end, id, Failed, Some(ExecutorFault(message)))
    case Normal =>
      if cancelled || moments[0].cancelled || moments[0].shutdown then WritesEnd(s0, s1, end, id, StatusCode.Cancelled)
      else if id !in s0.runs then WritesOutcome(s1, end, id, Failed, Some(StoreFault(RunNotFound(id))))
      else if s0.runs[id].cancelRequested then WritesEnd(s1, s2, end, id, StatusCode.Cancelled)
      else WritesEnd(s1, s2, end, id, Succeeded)
  }

  lemma ExecutionWrites(id: RunId, outcome: ExecutionOutcome, wk: Worker, moments: seq<Moment>)
    requires wk.ctx.Some? && ValidMoments(moments) && |moments| >= 3 && wk.phase == AfterExecution(id, outcome)
    ensures forall i | 0 <= i < |moments| :: RunStore.Valid(moments[i].store)
    ensures Wrote(id, outcome, wk.ctx.value, moments, Concluded(wk, moments).0)
  {
    assert RunStore.Valid(moments[0].store) && RunStore.Valid(moments[1].store) && RunStore.Valid(moments[2].store);
    var s0, now := moments[0].store, Seen(wk, moments[0]);
    if outcome.Raised? {
      FailingWrites(wk, moments, id, ExecutorFault(outcome.message));
    } else if now.ctx.value {
      LastCallWrites(wk, moments, id, StatusCode.Cancelled);
    } else {
      ConcludedRead(wk, moments);
      if id !in s0.runs {
        var fault := StoreFault(RunNotFound(id));
        FailingWrites(now.(phase := Failing(id, fault)), moments[1..], id, fault);
      } else if s0.runs[id].cancelRequested {
        LastCallWrites(now.(phase := Cancelling(id)), moments[1..], id, StatusCode.Cancelled);
      } else {
        LastCallWrites(now.(phase := Succeeding(id)), moments[1..], id, Succeeded);
      }
    }
  }

  // ----- the turns of the loop

  /**
   * One turn of the consumer loop: the shared state the claim finds, whether a shutdown arrives
   * during the wait, the clock readings of the claim, and what happens if a run is claimed.
   */
  datatype Round = Round(store: Store, shutdown: bool, t: Readings, outcome: ExecutionOutcome, moments: seq<Moment>)

  ghost predicate ValidRound(r: Round) {
    && RunStore.Valid(r.store) && r.store.runs.Keys <= r.t.checks.Keys
    && |r.moments| >= 3 && ValidMoments(r.moments)
  }

  /** Where a turn, or the whole loop, ends; `over` when the loop is left for good. */
  datatype LoopEnd = LoopEnd(store: Store, allowed: bool, over: bool, crashed: bool)

  /** The machine's worker when the executor of a claimed run is done. */
  function Done(id: RunId, outcome: ExecutionOutcome): Worker {
    Worker(AfterExecution(id, outcome), true, Some(false), true, {})
  }

  /** The execution of a claimed run, by the machine. */
  ghost function Served(id: RunId, outcome: ExecutionOutcome, moments: seq<Moment>): LoopEnd
    requires |moments| >= 3 && ValidMoments(moments)
  {
    var end := Concluded(Done(id, outcome), moments);
    LoopEnd(end.0, end.1.allowed, end.1.phase.crashed, end.1.phase.crashed)
  }

  /** One turn of the machine: a claim and, unless a shutdown has arrived, the execution. */
  ghost function Turn(w: WorkerId, r: Round): LoopEnd
    requires ValidRound(r)
  {
    var claimed := Claimed(r.store, w, r.t);
    if claimed.None? then LoopEnd(AfterClaim(r.store, w, r.t), !r.shutdown, false, false)
    else if r.shutdown then LoopEnd(AfterClaim(r.store, w, r.t), false, true, false)
    else Served(claimed.value, r.outcome, r.moments)
  }

  /** A turn is a claim step of the machine, and what follows on the worker it leaves. */
  lemma TurnFollowsMachine(w: WorkerId, r: Round, claim: (Store, Worker))
    requires ValidRound(r)
    requires claim == ClaimStep(r.store, w, FRESH.(phase := Waiting, allowed := !r.shutdown), r.t)
    ensures claim.1.phase.Looping? || claim.1.phase.Holding?
    ensures claim.1.phase.Looping? ==> Turn(w, r) == LoopEnd(claim.0, claim.1.allowed, false, false)
    ensures claim.1.phase.Holding? && !claim.1.allowed ==> Turn(w, r) == LoopEnd(claim.0, false, true, false)
    ensures claim.1.phase.Holding? && claim.1.allowed ==>
      Turn(w, r) == Served(claim.1.phase.id, r.outcome, r.moments)
  {
  }

  /** Begin and Finish of the machine lead from a claimed run to the end of its execution. */
  lemma DoneFollowsMachine(s: Store, clock: real, w: WorkerId, id: RunId, outcome: ExecutionOutcome)
    requires s.runs.Keys == s.log.Keys && forall i | 0 <= i < |s.order| :: s.order[i] in s.runs
    ensures
      var begun := WorkerStep(s, clock, w, FRESH.(phase := Holding(id)), Begin);
      WorkerStep(begun.0, clock, w, begun.1, Finish(outcome)) == (s, Done(id, outcome))
  {
  }

  /**
   * What a turn leaves: only what the claim makes, if it hands out nothing or a shutdown has arrived,
   * and a run claimed after a shutdown ends the loop; otherwise what the execution of that run writes,
   * and the loop goes on if there was no shutdown.
   */
  lemma TurnWrites(w: WorkerId, r: Round)
    requires ValidRound(r)
    ensures forall i | 0 <= i < |r.moments| :: RunStore.Valid(r.moments[i].store)
    ensures
      var end, claimed := Turn(w, r), Claimed(r.store, w, r.t);
      if claimed.Some? && !r.shutdown then
        && Wrote(claimed.value, r.outcome, false, r.moments, end.store)
        && (end.over <==> end.crashed)
        && (r.moments[0].shutdown ==> !end.allowed)
        && ((forall i | 0 <= i < |r.moments| :: !r.moments[i].shutdown) ==> end.allowed)
      else
        && end.store == AfterClaim(r.store, w, r.t)
        && end.allowed == !r.shutdown && end.over == claimed.Some? && !end.crashed
  {
    var claimed := Claimed(r.store, w, r.t);
    if claimed.Some? && !r.shutdown {
      var done := Done(claimed.value, r.outcome);
      ExecutionWrites(claimed.value, r.outcome, done, r.moments);
      AllowedUntilShutdown(done, r.moments);
    } else {
      assert ValidMoments(r.moments);
    }
  }

  /** The consumer loop of the machine, until it stops, crashes, or the rounds are used up. */
  ghost function Looped(s: Store, w: WorkerId, allowed: bool, rounds: seq<Round>): LoopEnd
    requires forall i | 0 <= i < |rounds| :: ValidRound(rounds[i])
    decreases |rounds|
  {
    if !allowed || rounds == [] then LoopEnd(s, allowed, !allowed, false)
    else
      assert ValidRound(rounds[0]);
      var end := Turn(w, rounds[0]);
      if end.over then end else Looped(end.store, w, end.allowed, rounds[1..])
  }

  /** A turn after which the loop does not go on. */
  predicate LastTurn(end: LoopEnd) {
    end.over || !end.allowed
  }

  lemma ValidRest(rounds: seq<Round>)
    requires rounds != [] && forall i | 0 <= i < |rounds| :: ValidRound(rounds[i])
    ensures ValidRound(rounds[0]) && forall i | 0 <= i < |rounds[1..]| :: ValidRound(rounds[1..][i])
  {
    forall i | 0 <= i < |rounds[1..]|
      ensures ValidRound(rounds[1..][i])
    {
      assert ValidRound(rounds[i + 1]);
    }
  }

  /** How every turn would end, if it was taken. */
  ghost function Turns(w: WorkerId, rounds: seq<Round>): (ends: seq<LoopEnd>)
    requires forall i | 0 <= i < |rounds| :: ValidRound(rounds[i])
    ensures |ends| == |rounds|
    decreases |rounds|
  {
    if rounds == [] then []
    else
      ValidRest(rounds);
      [Turn(w, rounds[0])] + Turns(w, rounds[1..])
  }

  lemma {:induction false} TurnsAt(w: WorkerId, rounds: seq<Round>, i: nat)
    requires i < |rounds| && forall j | 0 <= j < |rounds| :: ValidRound(rounds[j])
    ensures ValidRound(rounds[i]) && Turns(w, rounds)[i] == Turn(w, rounds[i])
    decreases i
  {
    ValidRest(rounds);
    if i > 0 {
      TurnsAt(w, rounds[1..], i - 1);
    }
  }

  /** A loop over ends of turns. */
  function LoopedOver(s: Store, allowed: bool, ends: seq<LoopEnd>): LoopEnd
    decreases |ends|
  {
    if !allowed || ends == [] then LoopEnd(s, allowed, !allowed, false)
    else if ends[0].over then ends[0]
    else LoopedOver(ends[0].store, ends[0].allowed, ends[1..])
  }

  lemma {:induction false} LoopedIsOverTurns(s: Store, w: WorkerId, allowed: bool, rounds: seq<Round>)
    requires forall i | 0 <= i < |rounds| :: ValidRound(rounds[i])
    ensures Looped(s, w, allowed, rounds) == LoopedOver(s, allowed, Turns(w, rounds))
    decreases |rounds|
  {
    if rounds != [] {
      ValidRest(rounds);
      var end := Turn(w, rounds[0]);
      assert Turns(w, rounds)[0] == end && Turns(w, rounds)[1..] == Turns(w, rounds[1..]);
      LoopedIsOverTurns(end.store, w, end.allowed, rounds[1..]);
    }
  }

  /** The loop ends as the n-th turn does, or as it began if there was none. */
  predicate EndsLike(end: LoopEnd, ends: seq<LoopEnd>, n: nat, s: Store, allowed: bool)
    requires n <= |ends|
  {
    if n == 0 then end.store == s && end.allowed == allowed && !end.crashed
    else
      var last := ends[n - 1];
      end.store == last.store && end.allowed == last.allowed && end.crashed == (last.over && last.crashed)
  }

  lemma {:induction false} LoopFollows(s: Store, allowed: bool, ends: seq<LoopEnd>) returns (n: nat)
    ensures n <= |ends| && (n == 0 <==> !allowed || ends == [])
    ensures forall i | 0 <= i < n - 1 :: !LastTurn(ends[i])
    ensures 0 < n < |ends| ==> LastTurn(ends[n - 1])
    ensures EndsLike(LoopedOver(s, allowed, ends), ends, n, s, allowed)
    decreases |ends|
  {
    n := 0;
    if allowed && ends != [] {
      n := 1;
      if !ends[0].over {
        var more := LoopFollows(ends[0].store, ends[0].allowed, ends[1..]);
        n := 1 + more;
        assert forall i | 0 < i < n :: ends[i] == ends[1..][i - 1];
      }
    }
  }

  /**
   * How many turns the loop takes: it goes on after each turn but the last, the last one is the first
   * that is over or forbids to go on, unless the rounds are used up, and the loop ends as it does.
   */
  lemma LoopGoesOn(s: Store, w: WorkerId, allowed: bool, rounds: seq<Round>, ends: seq<LoopEnd>) returns (n: nat)
    requires forall i | 0 <= i < |rounds| :: ValidRound(rounds[i])
    requires ends == Turns(w, rounds)
    ensures n <= |ends| == |rounds| && (n == 0 <==> !allowed || rounds == [])
    ensures forall i | 0 <= i < n - 1 :: !ends[i].over && ends[i].allowed
    ensures 0 < n < |rounds| ==> ends[n - 1].over || !ends[n - 1].allowed
    ensures EndsLike(Looped(s, w, allowed, rounds), ends, n, s, allowed)
  {
    LoopedIsOverTurns(s, w, allowed, rounds);
    n := LoopFollows(s, allowed, ends);
  }

  class InMemoryConsumer {
    const workerId: WorkerId
    const store: InMemoryRunProcessingStore
    const eventLog: InMemoryRunEventLog
    var executionAllowed: bool
    var currentCtx: RunExecutionContext?

    constructor (workerId: WorkerId, store: InMemoryRunProcessingStore, eventLog: InMemoryRunEventLog)
      ensures this.workerId == workerId && this.store == store && this.eventLog == eventLog
      ensures executionAllowed && currentCtx == null
    {
      this.workerId, this.store, this.eventLog := workerId, store, eventLog;
      executionAllowed, currentCtx := true, null;
    }

    /** `shutdown_execution`, the wake-up signal apart. */
    method ShutdownExecution()
      modifies `executionAllowed, currentCtx
      ensures !executionAllowed && currentCtx == old(currentCtx)
      ensures currentCtx != null ==> currentCtx.cancelled
    {
      executionAllowed := false;
      if currentCtx != null {
        currentCtx.Cancel();
      }
    }

    /** An await: the other parties act, and may cancel the context. */
    method Await(m: Moment)
      requires currentCtx != null && RunStore.Valid(m.store)
      modifies `executionAllowed, currentCtx, store.table, store.events
      ensures store.Valid() && store.State() == m.store
      ensures currentCtx.cancelled == (old(currentCtx.cancelled) || m.cancelled || m.shutdown)
      ensures executionAllowed == (old(executionAllowed) && !m.shutdown)
    {
      if m.cancelled {
        currentCtx.Cancel();
      }
      if m.shutdown {
        ShutdownExecution();
      }
      Interfere(store, m.store);
    }

    /** The machine's worker in the middle of `execute_run`. */
    ghost function At(p: Phase): Worker
      requires currentCtx != null
      reads this, currentCtx
    {
      Worker(p, executionAllowed, Some(currentCtx.cancelled), true, {})
    }

    /** The try block once the executor has returned; a fault is an exception on its way to the except branch. */
    method TryToFinish(id: RunId, moments: seq<Moment>) returns (fault: Option<Fault>, next: nat)
      requires store.Valid() && currentCtx != null && |moments| >= 3 && ValidMoments(moments)
      modifies `executionAllowed, currentCtx, store.table, store.events
      ensures store.Valid() && next <= 2
      ensures fault.None? ==>
        var end := Concluded(old(At(Returned(id))), moments);
        store.State() == end.0 && !end.1.phase.crashed && executionAllowed == end.1.allowed
      ensures fault.Some? ==>
        Concluded(old(At(Returned(id))), moments) == Concluded(At(Failing(id, fault.value)), moments[next..])
    {
      ghost var wk := At(Returned(id));
      Await(moments[0]);
      if currentCtx.IsCancelled() {
        var r := store.SetCancelled(id);
        ConcludedCall(wk, moments, Outcome(store.State(), r));
        return if r.Failure? then Some(StoreFault(r.error)) else None, 1;
      }
      var status := store.GetStatus(id);
      ConcludedRead(wk, moments);
      if status.Failure? {
        return Some(StoreFault(status.error)), 1;
      }
      fault := FinishAs(id, if status.value.cancelRequested then Cancelling(id) else Succeeding(id), moments[1..]);
      assert moments[1..][1..] == moments[2..];
      next := 2;
    }

    /** The last store call of the try block, on what the read has decided. */
    method FinishAs(id: RunId, p: Phase, moments: seq<Moment>) returns (fault: Option<Fault>)
      requires store.Valid() && currentCtx != null && |moments| >= 2 && ValidMoments(moments)
      requires p == Cancelling(id) || p == Succeeding(id)
      modifies `executionAllowed, currentCtx, store.table, store.events
      ensures store.Valid()
      ensures fault.None? ==>
        var end := Concluded(old(At(p)), moments);
        store.State() == end.0 && !end.1.phase.crashed && executionAllowed == end.1.allowed
      ensures fault.Some? ==> Concluded(old(At(p)), moments) == Concluded(At(Failing(id, fault.value)), moments[1..])
    {
      ghost var wk := At(p);
      Await(moments[0]);
      var r;
      if p.Cancelling? {
        r := store.SetCancelled(id);
      } else {
        r := store.SetSucceeded(id, DONE);
      }
      ConcludedCall(wk, moments, Outcome(store.State(), r));
      fault := if r.Failure? then Some(StoreFault(r.error)) else None;
    }

    /** The except branch. */
    method HandleFailure(id: RunId, fault: Fault, m: Moment) returns (r: Result<(), StoreError>)
      requires currentCtx != null && RunStore.Valid(m.store)
      modifies `executionAllowed, currentCtx, store.table, store.events
      ensures store.Valid()
      ensures Outcome(store.State(), r) == RunStore.SetFailed(m.store, id, fault)
      ensures executionAllowed == (old(executionAllowed) && !m.shutdown)
    {
      Await(m);
      r := store.SetFailed(id, fault);
    }

    /**
     * `execute_run`, given what the executor does and what the other parties make of the shared
     * state by each store call. `raised` tells whether an exception leaves it.
     */
    method ExecuteRun(id: RunId, outcome: ExecutionOutcome, moments: seq<Moment>) returns (raised: bool)
      requires store.Valid() && currentCtx != null && |moments| >= 3 && ValidMoments(moments)
      modifies `currentCtx, `executionAllowed, currentCtx, store.table, store.events
      ensures store.Valid() && currentCtx == null
      ensures store.State() == Concluded(old(At(AfterExecution(id, outcome))), moments).0
      ensures raised == Concluded(old(At(AfterExecution(id, outcome))), moments).1.phase.crashed
      ensures executionAllowed == Concluded(old(At(AfterExecution(id, outcome))), moments).1.allowed
    {
      ghost var wk := At(AfterExecution(id, outcome));
      var fault: Option<Fault>, next := None, 0;
      if outcome.Raised? {
        fault := Some(ExecutorFault(outcome.message));
      } else {
        fault, next := TryToFinish(id, moments);
      }
      raised := false;
      if fault.Some? {
        ConcludedExcept(At(Failing(id, fault.value)), moments[next..]);
        var r := HandleFailure(id, fault.value, moments[next]);
        raised := r.Failure?;
      }
      currentCtx := null;
    }

    /** The lease scope around `execute_run` in the loop. */
    method Serve(id: RunId, outcome: ExecutionOutcome, moments: seq<Moment>) returns (raised: bool)
      requires store.Valid() && executionAllowed && |moments| >= 3 && ValidMoments(moments)
      modifies `currentCtx, `executionAllowed, store.table, store.events
      ensures store.Valid() && currentCtx == null
      ensures LoopEnd(store.State(), executionAllowed, raised, raised) == Served(id, outcome, moments)
    {
      var ctx := new RunExecutionContext(id, eventLog);
      currentCtx := ctx;
      var lease := new RunLeaseScope(workerId, id, store, ctx);
      lease.Enter();
      assert At(AfterExecution(id, outcome)) == Done(id, outcome);
      raised := ExecuteRun(id, outcome, moments);
      lease.Exit();
    }

    /** One turn of the loop; `over` tells whether it leaves the loop. */
    method TakeTurn(round: Round) returns (over: bool, crashed: bool)
      requires store.Valid() && currentCtx == null && executionAllowed && ValidRound(round)
      modifies `currentCtx, `executionAllowed, store.table, store.events
      ensures store.Valid() && currentCtx == null
      ensures LoopEnd(store.State(), executionAllowed, over, crashed) == Turn(workerId, round)
    {
      Interfere(store, round.store);
      if round.shutdown {
        ShutdownExecution();
      }
      var claimed := store.ClaimRun(workerId, round.t);
      if claimed.None? {
        return false, false;
      }
      if !executionAllowed {
        return true, false;
      }
      crashed := Serve(claimed.value.id, round.outcome, round.moments);
      over := crashed;
    }

    /** `consume_and_execute_loop`; `crashed` tells whether an exception has ended it. */
    method ConsumeAndExecuteLoop(rounds: seq<Round>) returns (crashed: bool)
      requires store.Valid() && currentCtx == null
      requires forall i | 0 <= i < |rounds| :: ValidRound(rounds[i])
      modifies `currentCtx, `executionAllowed, store.table, store.events
      ensures store.Valid() && currentCtx == null
      ensures
        var end := Looped(old(store.State()), workerId, old(executionAllowed), rounds);
        store.State() == end.store && executionAllowed == end.allowed && crashed == end.crashed
    {
      var i := 0;
      while executionAllowed && i < |rounds|
        invariant i <= |rounds| && store.Valid() && currentCtx == null
        invariant Looped(store.State(), workerId, executionAllowed, rounds[i..]) ==
                  Looped(old(store.State()), workerId, old(executionAllowed), rounds)
        decreases |rounds| - i
      {
        assert rounds[i..][0] == rounds[i] && rounds[i..][1..] == rounds[i + 1..];
        var over;
        over, crashed := TakeTurn(rounds[i]);
        i := i + 1;
        if over {
          return;
        }
      }
      crashed := false;
    }
  }
}
