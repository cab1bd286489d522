/** The run record, the status graph and the merge of a transition request into a record. */
module RunDomain {
  import opened Wrappers

  /** Run ids stand for UUIDs and worker ids for worker names: only equality matters. */
  type RunId = nat
  type WorkerId = nat

  datatype StatusCode = Created | Enqueued | Running | Succeeded | Failed | Cancelled | TimedOut | Retrying

  predicate Terminal(c: StatusCode) {
    c in {Succeeded, Failed, Cancelled}
  }

  /** What a store call can raise. */
  datatype StoreError =
    | MissingKey(id: RunId)
    | RunNotFound(id: RunId)
    | InvalidTransition(from: StatusCode, to: StatusCode)
    | LeaseLost(id: RunId, worker: WorkerId)

  /** The text `str(exc)` of an exception: of the executor's own, or of a store error. */
  datatype Fault = ExecutorFault(message: string) | StoreFault(error: StoreError)

  /** `RunStatus`. The result of a run is an opaque text. */
  datatype Run = Run(
    id: RunId,
    status: StatusCode,
    result: Option<string>,
    error: Option<Fault>,
    claimedWorker: Option<WorkerId>,
    expiration: Option<real>,
    retryCount: nat,
    cancelRequested: bool)

  /** A record built with the four leading fields only; the others take their defaults. */
  function BareRun(id: RunId, status: StatusCode, result: Option<string>, error: Option<Fault>): Run {
    Run(id, status, result, error, None, None, 0, false)
  }

  // ----- transition rules

  /** `DEFAULT_TRANSITION_RULES`. */
  function Successors(c: StatusCode): set<StatusCode> {
    match c
    case Created => {Enqueued, Cancelled}
    case Enqueued => {Running, Cancelled}
    case Running => {Succeeded, Failed, Cancelled, TimedOut}
    case Succeeded => {}
    case Failed => {}
    case Cancelled => {}
    case TimedOut => {Retrying}
    case Retrying => {Enqueued}
  }

  predicate Allowed(from: StatusCode, to: StatusCode) {
    to in Successors(from)
  }

  /** A walk along the rule table. */
  ghost predicate RulePath(path: seq<StatusCode>) {
    && path != []
    && forall i | 0 <= i < |path| - 1 :: Allowed(path[i], path[i + 1])
  }

  ghost predicate Connected(from: StatusCode, to: StatusCode) {
    exists path :: RulePath(path) && path[0] == from && path[|path| - 1] == to
  }

  lemma ConnectedRefl(c: StatusCode)
    ensures Connected(c, c)
  {
    assert RulePath([c]);
  }

  lemma ConnectedTrans(a: StatusCode, b: StatusCode, c: StatusCode)
    requires Connected(a, b) && Connected(b, c)
    ensures Connected(a, c)
  {
    var p :| RulePath(p) && p[0] == a && p[|p| - 1] == b;
    var q :| RulePath(q) && q[0] == b && q[|q| - 1] == c;
    var path := p + q[1..];
    forall i | 0 <= i < |path| - 1
      ensures Allowed(path[i], path[i + 1])
    {
      if i >= |p| - 1 {
        var j := i - (|p| - 1);
        assert path[i] == q[j] && path[i + 1] == q[j + 1];
      }
    }
    assert RulePath(path);
  }

  // ----- transition requests

  /** A request field is either left unset or carries a value, which may itself be None. */
  datatype Field<+T> = Unset | Set(value: T)

  datatype TransitionRequest = TransitionRequest(
    result: Field<Option<string>>,
    error: Field<Option<Fault>>,
    workerId: Field<Option<WorkerId>>,
    retryCount: Field<nat>,
    expiration: Field<Option<real>>)

  const NO_CHANGE := TransitionRequest(Unset, Unset, Unset, Unset, Unset)

  function ValueOrFallback<T>(request: Field<T>, current: T): T {
    if request.Set? then request.value else current
  }

  /** The record `_transition_locked` stores. */
  function Merge(r: Run, target: StatusCode, request: TransitionRequest): Run {
    Run(
      r.id,
      target,
      ValueOrFallback(request.result, r.result),
      ValueOrFallback(request.error, r.error),
      ValueOrFallback(request.workerId, r.claimedWorker),
      ValueOrFallback(request.expiration, r.expiration),
      ValueOrFallback(request.retryCount, r.retryCount),
      r.cancelRequested)
  }

  /** A field of the request that is set replaces that of the record, even by None; all others stay. */
  lemma MergeReplacesSetFields(r: Run, target: StatusCode, request: TransitionRequest)
    ensures
      var m := Merge(r, target, request);
      && m.id == r.id && m.status == target && m.cancelRequested == r.cancelRequested
      && m.result == (match request.result case Unset => r.result case Set(x) => x)
      && m.error == (match request.error case Unset => r.error case Set(x) => x)
      && m.claimedWorker == (match request.workerId case Unset => r.claimedWorker case Set(x) => x)
      && m.expiration == (match request.expiration case Unset => r.expiration case Set(x) => x)
      && m.retryCount == (match request.retryCount case Unset => r.retryCount case Set(x) => x)
  {
  }

  // ----- leases

  const LEASE_SECONDS: real := 30.0

  /** `has_claim_expired`: a missing or zero expiry never expires. */
  predicate HasClaimExpired(r: Run, now: real) {
    r.expiration.Some? && r.expiration.value != 0.0 && now > r.expiration.value
  }

  /** `get_new_expiration_ts`. */
  function NewExpiration(now: real): real {
    now + LEASE_SECONDS
  }
}
