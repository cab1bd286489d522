/**
 * A worker as a program counter: the consumer loop, `execute_run`, and the heartbeat task of the
 * lease scope, cut at their store calls.
 */
module WorkerMachine {
  import opened Wrappers
  import opened RunDomain
  import opened RunStore

  datatype Phase =
    | Looping                                 // about to test `_execution_allowed`
    | Waiting                                 // inside `run_signal_queue.wait`
    | Holding(id: RunId)                      // claimed, the lease scope not entered yet
    | Executing(id: RunId)                    // the executor runs
    | Returned(id: RunId)                     // the executor has returned
    | Cancelling(id: RunId)                   // intent was read after execution
    | Succeeding(id: RunId)                   // no intent was read after execution
    | Failing(id: RunId, fault: Fault)        // in the except branch
    | Leaving(id: RunId, crashed: bool)       // `execute_run` is over, the scope is not left yet
    | Stopped                                 // the loop has ended
    | Crashed(id: RunId)                      // the loop has ended with an exception
    | Killed

  /**
   * `ctx` is the cancellation flag of the current execution context, if there is one, and `beating`
   * whether the heartbeat task still runs. `interrupted` is a record of the past: the runs whose
   * context a shutdown cancelled.
   */
  datatype Worker = Worker(
    phase: Phase,
    allowed: bool,
    ctx: Option<bool>,
    beating: bool,
    interrupted: set<RunId>)

  const FRESH := Worker(Looping, true, None, false, {})

  /** The run a worker is busy with, from its claim to the end of `execute_run`. */
  function Busy(p: Phase): Option<RunId> {
    match p
    case Holding(id) => Some(id)
    case Executing(id) => Some(id)
    case Returned(id) => Some(id)
    case Cancelling(id) => Some(id)
    case Succeeding(id) => Some(id)
    case Failing(id, _) => Some(id)
    case _ => None
  }

  /** The run whose lease scope a worker is in. */
  function Scope(p: Phase): Option<RunId> {
    if p.Holding? then None
    else if p.Leaving? then Some(p.id)
    else Busy(p)
  }

  datatype ExecutionOutcome = Normal | Raised(message: string)

  /** Where `execute_run` goes on when the executor is done. */
  function AfterExecution(id: RunId, outcome: ExecutionOutcome): Phase {
    match outcome
    case Normal => Returned(id)
    case Raised(message) => Failing(id, ExecutorFault(message))
  }

  datatype Act =
    | Wake
    | Claim(t: Readings)
    | Begin
    | Emit(name: string)
    | Finish(outcome: ExecutionOutcome)
    | Finalize
    | Leave
    | Beat(now: real)
    | Shutdown
    | Kill

  predicate InFinalization(p: Phase) {
    p.Returned? || p.Cancelling? || p.Succeeding? || p.Failing?
  }

  predicate Possible(s: Store, clock: real, wk: Worker, a: Act) {
    match a
    case Wake => wk.phase.Looping?
    case Claim(t) =>
      && wk.phase.Waiting?
      && clock <= t.grant
      && forall id | id in s.runs :: id in t.checks && clock <= t.checks[id] <= t.grant
    case Begin => wk.phase.Holding?
    case Emit(_) => wk.phase.Executing?
    case Finish(_) => wk.phase.Executing?
    case Finalize => InFinalization(wk.phase)
    case Leave => wk.phase.Leaving?
    case Beat(now) => wk.beating && Scope(wk.phase).Some? && clock <= now
    case Shutdown => !wk.phase.Killed?
    case Kill => !wk.phase.Killed?
  }

  const DONE := "ok"

  /** `_current_run_execution_ctx = None` in the finally block. */
  function Over(wk: Worker, id: RunId, crashed: bool): Worker {
    wk.(phase := Leaving(id, crashed), ctx := None)
  }

  /** A store call of the try block: an exception leads to the except branch. */
  function Settled(wk: Worker, id: RunId, o: Outcome<()>): (Store, Worker) {
    (o.store,
     if o.result.Success? then Over(wk, id, false) else wk.(phase := Failing(id, StoreFault(o.result.error))))
  }

  function FinalizeStep(s: Store, wk: Worker): (Store, Worker)
    requires s.runs.Keys == s.log.Keys && InFinalization(wk.phase)
  {
    var id := wk.phase.id;
    match wk.phase
    case Returned(_) =>
      if wk.ctx == Some(true) then Settled(wk, id, SetCancelled(s, id))
      else (
        var status := GetStatus(s, id);
        (s,
         if status.Failure? then wk.(phase := Failing(id, StoreFault(status.error)))
         else if status.value.cancelRequested then wk.(phase := Cancelling(id))
         else wk.(phase := Succeeding(id))))
    case Cancelling(_) => Settled(wk, id, SetCancelled(s, id))
    case Succeeding(_) => Settled(wk, id, SetSucceeded(s, id, DONE))
    case Failing(_, fault) =>
      var o := SetFailed(s, id, fault);
      (o.store, Over(wk, id, o.result.Failure?))
    case _ => (s, wk)
  }

  /** One turn of the heartbeat loop after its sleep. */
  function BeatStep(s: Store, w: WorkerId, wk: Worker, now: real): (Store, Worker)
    requires s.runs.Keys == s.log.Keys && Scope(wk.phase).Some?
  {
    var o := Heartbeat(s, Scope(wk.phase).value, w, now);
    (o.store,
     if o.result.Success? && o.result.value.cancelRequested then
       wk.(ctx := if wk.ctx.Some? then Some(true) else None, beating := false)
     else if o.result.Failure? && o.result.error.LeaseLost? then wk.(beating := false)
     else wk)
  }

  function ClaimStep(s: Store, w: WorkerId, wk: Worker, t: Readings): (Store, Worker)
    requires s.runs.Keys == s.log.Keys && s.runs.Keys <= t.checks.Keys
    requires forall i | 0 <= i < |s.order| :: s.order[i] in s.runs
  {
    var claimed := Claimed(s, w, t);
    (AfterClaim(s, w, t), wk.(phase := if claimed.Some? then Holding(claimed.value) else Looping))
  }

  function WorkerStep(s: Store, clock: real, w: WorkerId, wk: Worker, a: Act): (Store, Worker)
    requires s.runs.Keys == s.log.Keys && Possible(s, clock, wk, a)
    requires forall i | 0 <= i < |s.order| :: s.order[i] in s.runs
  {
    match a
    case Wake => (s, wk.(phase := if wk.allowed then Waiting else Stopped))
    case Claim(t) => ClaimStep(s, w, wk, t)
    case Begin =>
      (s,
       if wk.allowed then wk.(phase := Executing(wk.phase.id), ctx := Some(false), beating := true)
       else wk.(phase := Stopped))
    case Emit(name) =>
      (if wk.phase.id in s.runs then Apply(s, wk.phase.id, Note(name)) else s, wk)
    case Finish(outcome) => (s, wk.(phase := AfterExecution(wk.phase.id, outcome)))
    case Finalize => FinalizeStep(s, wk)
    case Leave =>
      (s, wk.(phase := if wk.phase.crashed then Crashed(wk.phase.id) else Looping, beating := false))
    case Beat(now) => BeatStep(s, w, wk, now)
    case Shutdown =>
      (s,
       if wk.ctx.Some? && Scope(wk.phase).Some? then
         wk.(allowed := false, ctx := Some(true), interrupted := wk.interrupted + {Scope(wk.phase).value})
       else wk.(allowed := false))
    case Kill => (s, wk.(phase := Killed, ctx := None, beating := false))
  }
}
