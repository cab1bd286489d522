/** What each store call does to the run table and the event log, as functions on values. */
module RunStore {
  import opened Wrappers
  import opened RunDomain
  import opened EventLog

  /** The shared dictionary with its insertion order, and the event log. */
  datatype Store = Store(order: seq<RunId>, runs: map<RunId, Run>, log: map<RunId, Stream>)

  ghost predicate Valid(s: Store) {
    && (forall i, j | 0 <= i < j < |s.order| :: s.order[i] != s.order[j])
    && (forall i | 0 <= i < |s.order| :: s.order[i] in s.runs)
    && (forall id {:trigger id in s.order} :: id in s.runs ==> id in s.order)
    && s.runs.Keys == s.log.Keys
    && forall id | id in s.runs :: s.runs[id].id == id && Numbered(id, s.log[id])
  }

  // ----- what can happen to one run

  datatype Change =
    | Enqueue
    | Recover(worker: WorkerId, now: real)
    | Take(worker: WorkerId, now: real)
    | Renew(worker: WorkerId, now: real)
    | Cancel
    | Succeed(result: string)
    | Fail(fault: Fault)
    | AskCancel
    | MarkCancel
    | NoteLost(worker: WorkerId)
    | Note(name: string)

  predicate Claimable(r: Run) {
    r.status.Enqueued? && !r.cancelRequested
  }

  predicate Lapsed(r: Run, now: real) {
    r.status.Running? && HasClaimExpired(r, now)
  }

  /** When the stores let a change happen. */
  predicate Permitted(r: Run, c: Change) {
    match c
    case Enqueue => Allowed(r.status, StatusCode.Enqueued)
    case Recover(_, now) => Lapsed(r, now)
    case Take(_, _) => Claimable(r)
    case Renew(w, _) => r.status.Running? && r.claimedWorker == Some(w)
    case Cancel => Allowed(r.status, StatusCode.Cancelled)
    case Succeed(_) => Allowed(r.status, StatusCode.Succeeded)
    case Fail(_) => Allowed(r.status, StatusCode.Failed)
    case AskCancel => !Terminal(r.status) && !r.cancelRequested
    case MarkCancel => !Terminal(r.status) && Allowed(r.status, StatusCode.Cancelled)
    case NoteLost(w) => r.status.Running? && r.claimedWorker != Some(w)
    case Note(_) => true
  }

  function RunAfter(r: Run, c: Change): Run {
    match c
    case Enqueue => BareRun(r.id, StatusCode.Enqueued, r.result, r.error)
    case Recover(w, _) => r.(status := StatusCode.Enqueued, claimedWorker := Some(w), retryCount := r.retryCount + 1)
    case Take(w, now) =>
      r.(status := StatusCode.Running, claimedWorker := Some(w), expiration := Some(NewExpiration(now)))
    case Renew(_, now) => r.(expiration := Some(NewExpiration(now)))
    case Cancel => r.(status := StatusCode.Cancelled)
    case Succeed(result) => r.(status := StatusCode.Succeeded, result := Some(result))
    case Fail(fault) => r.(status := StatusCode.Failed, error := Some(fault))
    case AskCancel => r.(cancelRequested := true)
    case MarkCancel => BareRun(r.id, StatusCode.Cancelled, r.result, r.error)
    case NoteLost(_) => r
    case Note(_) => r
  }

  /** The event a change appends; only a lease renewal leaves no trace in the log. */
  function Emitted(c: Change): Option<EventKind> {
    match c
    case Enqueue => Some(RunEnqueued)
    case Recover(_, _) => Some(ClaimExpired)
    case Take(w, _) => Some(RunClaimed(w))
    case Renew(_, _) => None
    case Cancel => Some(RunCancelled)
    case Succeed(_) => Some(RunSucceeded)
    case Fail(fault) => Some(RunFailed(fault))
    case AskCancel => Some(CancelAsked)
    case MarkCancel => Some(RunCancelled)
    case NoteLost(w) => Some(ClaimLost(w))
    case Note(name) => Some(ExecutorEvent(name))
  }

  /** A run with its event stream. */
  datatype Entry = Entry(run: Run, stream: Stream)

  function EntryAfter(e: Entry, c: Change): Entry {
    var event := Emitted(c);
    Entry(RunAfter(e.run, c), if event.None? then e.stream else Appended(e.run.id, e.stream, event.value))
  }

  function EntryOf(s: Store, id: RunId): Entry
    requires id in s.runs && id in s.log
  {
    Entry(s.runs[id], s.log[id])
  }

  function Apply(s: Store, id: RunId, c: Change): Store
    requires id in s.runs && id in s.log
  {
    var e := EntryAfter(EntryOf(s, id), c);
    s.(runs := s.runs[id := e.run], log := s.log[id := e.stream])
  }

  lemma EntryAfterNumbered(e: Entry, c: Change)
    requires Numbered(e.run.id, e.stream)
    ensures EntryAfter(e, c).run.id == e.run.id && Numbered(e.run.id, EntryAfter(e, c).stream)
    ensures e.stream <= EntryAfter(e, c).stream
  {
  }

  lemma ApplyKeepsValid(s: Store, id: RunId, c: Change)
    requires Valid(s) && id in s.runs
    ensures Valid(Apply(s, id, c))
    ensures Apply(s, id, c).order == s.order && Apply(s, id, c).runs.Keys == s.runs.Keys
  {
    EntryAfterNumbered(EntryOf(s, id), c);
  }

  lemma ApplyAt(s: Store, id: RunId, c: Change, other: RunId)
    requires s.runs.Keys == s.log.Keys && id in s.runs && other in s.runs
    ensures EntryOf(Apply(s, id, c), other) == if other == id then EntryAfter(EntryOf(s, id), c) else EntryOf(s, other)
  {
  }

  // ----- the store calls

  /** A call leaves a store behind and either returns or raises. */
  datatype Outcome<+T> = Outcome(store: Store, result: Result<T, StoreError>)

  function Raise<T>(s: Store, error: StoreError): Outcome<T> {
    Outcome(s, Failure(error))
  }

  /** `create_run` with a fresh id. */
  function CreateRun(s: Store, id: RunId, user: string): Store {
    Store(
      s.order + [id],
      s.runs[id := BareRun(id, StatusCode.Created, None, None)],
      s.log[id := Appended(id, [], RunCreated(user))])
  }

  lemma CreateKeepsValid(s: Store, id: RunId, user: string)
    requires Valid(s) && id !in s.runs
    ensures Valid(CreateRun(s, id, user))
  {
    var s' := CreateRun(s, id, user);
    forall i | i in s'.runs
      ensures s'.runs[i].id == i && Numbered(i, s'.log[i])
    {
    }
    assert forall i :: i in s'.order <==> i in s.order || i == id;
  }

  /** A guarded status change, refused when the id is missing or the rules forbid it. */
  function Guarded(s: Store, id: RunId, target: StatusCode, c: Change): Outcome<()>
    requires s.runs.Keys == s.log.Keys
  {
    if id !in s.runs then Raise(s, MissingKey(id))
    else if !Allowed(s.runs[id].status, target) then Raise(s, InvalidTransition(s.runs[id].status, target))
    else Outcome(Apply(s, id, c), Success(()))
  }

  function MarkEnqueued(s: Store, id: RunId): Outcome<()>
    requires s.runs.Keys == s.log.Keys
  {
    Guarded(s, id, StatusCode.Enqueued, Enqueue)
  }

  function SetSucceeded(s: Store, id: RunId, result: string): Outcome<()>
    requires s.runs.Keys == s.log.Keys
  {
    Guarded(s, id, StatusCode.Succeeded, Succeed(result))
  }

  function SetFailed(s: Store, id: RunId, fault: Fault): Outcome<()>
    requires s.runs.Keys == s.log.Keys
  {
    Guarded(s, id, StatusCode.Failed, Fail(fault))
  }

  function SetCancelled(s: Store, id: RunId): Outcome<()>
    requires s.runs.Keys == s.log.Keys
  {
    Guarded(s, id, StatusCode.Cancelled, Cancel)
  }

  /** The deprecated `mark_cancelled`. */
  function MarkCancelled(s: Store, id: RunId): Outcome<bool>
    requires s.runs.Keys == s.log.Keys
  {
    if id !in s.runs then Raise(s, RunNotFound(id))
    else if Terminal(s.runs[id].status) then Outcome(s, Success(false))
    else if !Allowed(s.runs[id].status, StatusCode.Cancelled) then
      Raise(s, InvalidTransition(s.runs[id].status, StatusCode.Cancelled))
    else Outcome(Apply(s, id, MarkCancel), Success(true))
  }

  function RequestCancellation(s: Store, id: RunId): Outcome<bool>
    requires s.runs.Keys == s.log.Keys
  {
    if id !in s.runs then Raise(s, RunNotFound(id))
    else if Terminal(s.runs[id].status) || s.runs[id].cancelRequested then Outcome(s, Success(false))
    else Outcome(Apply(s, id, AskCancel), Success(true))
  }

  function GetStatus(s: Store, id: RunId): Result<Run, StoreError> {
    if id !in s.runs then Failure(RunNotFound(id)) else Success(s.runs[id])
  }

  function Heartbeat(s: Store, id: RunId, w: WorkerId, now: real): Outcome<Run>
    requires s.runs.Keys == s.log.Keys
  {
    if id !in s.runs then Raise(s, MissingKey(id))
    else if !s.runs[id].status.Running? then Outcome(s, Success(s.runs[id]))
    else if s.runs[id].claimedWorker != Some(w) then Raise(Apply(s, id, NoteLost(w)), LeaseLost(id, w))
    else
      var s' := Apply(s, id, Renew(w, now));
      Outcome(s', Success(s'.runs[id]))
  }

  /** Exactly when the guarded calls raise; raising, they change neither the table nor the log. */
  lemma RefusedCallsChangeNothing(s: Store, id: RunId, result: string, fault: Fault)
    requires s.runs.Keys == s.log.Keys
    ensures MarkEnqueued(s, id).result.Failure? <==>
          id !in s.runs || s.runs[id].status !in {StatusCode.Created, Retrying}
    ensures SetSucceeded(s, id, result).result.Failure? <==> id !in s.runs || s.runs[id].status != StatusCode.Running
    ensures SetFailed(s, id, fault).result.Failure? <==> id !in s.runs || s.runs[id].status != StatusCode.Running
    ensures SetCancelled(s, id).result.Failure? <==>
      id !in s.runs || s.runs[id].status !in {StatusCode.Created, StatusCode.Enqueued, StatusCode.Running}
    ensures MarkCancelled(s, id).result.Failure? <==> id !in s.runs || s.runs[id].status in {TimedOut, Retrying}
    ensures RequestCancellation(s, id).result.Failure? <==> id !in s.runs
    ensures MarkEnqueued(s, id).result.Failure? ==> MarkEnqueued(s, id).store == s
    ensures SetSucceeded(s, id, result).result.Failure? ==> SetSucceeded(s, id, result).store == s
    ensures SetFailed(s, id, fault).result.Failure? ==> SetFailed(s, id, fault).store == s
    ensures SetCancelled(s, id).result.Failure? ==> SetCancelled(s, id).store == s
    ensures MarkCancelled(s, id).result != Success(true) ==> MarkCancelled(s, id).store == s
    ensures RequestCancellation(s, id).result != Success(true) ==> RequestCancellation(s, id).store == s
  {
  }

  /** A heartbeat raises on a running run of another worker, and then leaves a trace only in the log. */
  lemma LostHeartbeatIsLogged(s: Store, id: RunId, w: WorkerId, now: real)
    requires s.runs.Keys == s.log.Keys
    ensures Heartbeat(s, id, w, now).result.Failure? <==>
      id !in s.runs || (s.runs[id].status == StatusCode.Running && s.runs[id].claimedWorker != Some(w))
    ensures id !in s.runs ==> Heartbeat(s, id, w, now).store == s
    ensures id in s.runs && Heartbeat(s, id, w, now).result.Failure? ==>
      Heartbeat(s, id, w, now).store == s.(log := s.log[id := Appended(s.runs[id].id, s.log[id], ClaimLost(w))])
    ensures Heartbeat(s, id, w, now).result.Success? ==> Heartbeat(s, id, w, now).store.log == s.log
  {
    if id in s.runs {
      assert s.runs[id := s.runs[id]] == s.runs;
      assert s.log[id := s.log[id]] == s.log;
    }
  }

  // ----- claim_run

  /** The clock readings of one `claim_run`: one for each run checked, one for the new lease. */
  datatype Readings = Readings(checks: map<RunId, real>, grant: real)

  /** At most one change for each run. */
  type Changes = map<RunId, Option<Change>>

  function EntryAfterAny(e: Entry, c: Option<Change>): Entry {
    if c.None? then e else EntryAfter(e, c.value)
  }

  /** Every run undergoes its own change. */
  function ApplyEach(s: Store, changes: Changes): Store
    requires s.runs.Keys == s.log.Keys == changes.Keys
  {
    Store(
      s.order,
      map id | id in s.runs :: EntryAfterAny(EntryOf(s, id), changes[id]).run,
      map id | id in s.runs :: EntryAfterAny(EntryOf(s, id), changes[id]).stream)
  }

  /** First loop, on one run: a lapsed lease is recovered. */
  function SweepChange(r: Run, w: WorkerId, now: real): Option<Change> {
    if Lapsed(r, now) then Some(Recover(w, now)) else None
  }

  function SweepChanges(runs: map<RunId, Run>, w: WorkerId, checks: map<RunId, real>): Changes
    requires runs.Keys <= checks.Keys
  {
    map id | id in runs :: SweepChange(runs[id], w, checks[id])
  }

  function AfterSweep(s: Store, w: WorkerId, t: Readings): Store
    requires s.runs.Keys == s.log.Keys && s.runs.Keys <= t.checks.Keys
  {
    ApplyEach(s, SweepChanges(s.runs, w, t.checks))
  }

  /** Position of the first claimable run, or the number of runs if there is none. */
  function FirstClaimable(order: seq<RunId>, runs: map<RunId, Run>): (k: nat)
    requires forall i | 0 <= i < |order| :: order[i] in runs
    ensures k <= |order|
    ensures forall i | 0 <= i < k :: !Claimable(runs[order[i]])
    ensures k < |order| ==> Claimable(runs[order[k]])
  {
    if order == [] || Claimable(runs[order[0]]) then 0
    else 1 + FirstClaimable(order[1..], runs)
  }

  /**
   * Second loop, on one run: the first claimable run (at position k) is taken, every enqueued run
   * before it, which must carry cancel intent, is cancelled, and the others are left alone.
   */
  function DispatchChange(order: seq<RunId>, k: nat, r: Run, w: WorkerId, grant: real, id: RunId): Option<Change>
    requires k <= |order|
  {
    if k < |order| && order[k] == id then Some(Take(w, grant))
    else if r.status.Enqueued? && id in order[..k] then Some(Cancel)
    else None
  }

  function DispatchChanges(order: seq<RunId>, runs: map<RunId, Run>, w: WorkerId, grant: real): Changes
    requires forall i | 0 <= i < |order| :: order[i] in runs
  {
    var k := FirstClaimable(order, runs);
    map id | id in runs :: DispatchChange(order, k, runs[id], w, grant, id)
  }

  /** The second loop at position i of the table. */
  lemma DispatchChangeAt(order: seq<RunId>, runs: map<RunId, Run>, w: WorkerId, grant: real, i: nat)
    requires forall j | 0 <= j < |order| :: order[j] in runs
    requires forall j, l | 0 <= j < l < |order| :: order[j] != order[l]
    requires i < |order|
    ensures
      var k, r := FirstClaimable(order, runs), runs[order[i]];
      var c := DispatchChanges(order, runs, w, grant)[order[i]];
      && (i < k ==> !Claimable(r) && c == if r.status.Enqueued? then Some(Cancel) else None)
      && (i == k ==> Claimable(r) && c == Some(Take(w, grant)))
      && (i > k ==> c == None)
  {
    var k := FirstClaimable(order, runs);
    if i < k {
      assert order[..k][i] == order[i];
    } else if i > k {
      assert order[i] !in order[..k];
    }
  }

  /** The second loop, on the table the first one leaves. */
  function AfterDispatch(s: Store, w: WorkerId, t: Readings): Store
    requires s.runs.Keys == s.log.Keys
    requires forall i | 0 <= i < |s.order| :: s.order[i] in s.runs
  {
    ApplyEach(s, DispatchChanges(s.order, s.runs, w, t.grant))
  }

  function AfterClaim(s: Store, w: WorkerId, t: Readings): Store
    requires s.runs.Keys == s.log.Keys && s.runs.Keys <= t.checks.Keys
    requires forall i | 0 <= i < |s.order| :: s.order[i] in s.runs
  {
    AfterDispatch(AfterSweep(s, w, t), w, t)
  }

  /** The run `claim_run` hands out. */
  function Claimed(s: Store, w: WorkerId, t: Readings): Option<RunId>
    requires s.runs.Keys == s.log.Keys && s.runs.Keys <= t.checks.Keys
    requires forall i | 0 <= i < |s.order| :: s.order[i] in s.runs
  {
    var k := FirstClaimable(s.order, AfterSweep(s, w, t).runs);
    if k < |s.order| then Some(s.order[k]) else None
  }

  /** The two changes a `claim_run` can make to one run. */
  function FirstChange(s: Store, w: WorkerId, t: Readings, id: RunId): Option<Change>
    requires s.runs.Keys <= t.checks.Keys && id in s.runs
  {
    SweepChange(s.runs[id], w, t.checks[id])
  }

  function SecondChange(s: Store, w: WorkerId, t: Readings, id: RunId): Option<Change>
    requires s.runs.Keys == s.log.Keys && s.runs.Keys <= t.checks.Keys && id in s.runs
    requires forall i | 0 <= i < |s.order| :: s.order[i] in s.runs
  {
    DispatchChanges(s.order, AfterSweep(s, w, t).runs, w, t.grant)[id]
  }

  lemma ApplyEachAt(s: Store, changes: Changes, id: RunId)
    requires s.runs.Keys == s.log.Keys == changes.Keys && id in s.runs
    ensures EntryOf(ApplyEach(s, changes), id) == EntryAfterAny(EntryOf(s, id), changes[id])
  {
  }

  lemma ApplyEachKeepsValid(s: Store, changes: Changes)
    requires Valid(s) && changes.Keys == s.runs.Keys
    ensures Valid(ApplyEach(s, changes))
  {
    var s' := ApplyEach(s, changes);
    forall id | id in s'.runs
      ensures s'.runs[id].id == id && Numbered(id, s'.log[id])
    {
      ApplyEachAt(s, changes, id);
      if changes[id].Some? {
        EntryAfterNumbered(EntryOf(s, id), changes[id].value);
      }
    }
  }

  lemma ClaimKeepsValid(s: Store, w: WorkerId, t: Readings)
    requires Valid(s) && s.runs.Keys <= t.checks.Keys
    ensures Valid(AfterSweep(s, w, t)) && Valid(AfterClaim(s, w, t))
    ensures AfterClaim(s, w, t).order == s.order && AfterClaim(s, w, t).runs.Keys == s.runs.Keys
  {
    ApplyEachKeepsValid(s, SweepChanges(s.runs, w, t.checks));
    var swept := AfterSweep(s, w, t);
    ApplyEachKeepsValid(swept, DispatchChanges(swept.order, swept.runs, w, t.grant));
  }
}
