/** The worker side of the run store. */
module ProcessingStore {
  import opened Wrappers
  import opened RunDomain
  import opened EventLog
  import opened RunStore
  import opened RunTable

  datatype ClaimedRun = ClaimedRun(id: RunId, run: Run)

  // ----- how far a loop over the table has come

  ghost function NoChanges(s: Store): Changes {
    map id | id in s.runs :: None
  }

  lemma ApplyNone(s: Store)
    requires s.runs.Keys == s.log.Keys
    ensures ApplyEach(s, NoChanges(s)) == s
  {
    assert ApplyEach(s, NoChanges(s)).runs == s.runs;
    assert ApplyEach(s, NoChanges(s)).log == s.log;
  }

  lemma ApplyAtRuns(s: Store, done: Changes, id: RunId, c: Option<Change>)
    requires s.runs.Keys == s.log.Keys == done.Keys && id in s.runs
    ensures ApplyEach(s, done[id := c]).runs == ApplyEach(s, done).runs[id := EntryAfterAny(EntryOf(s, id), c).run]
  {
  }

  lemma ApplyAtLog(s: Store, done: Changes, id: RunId, c: Option<Change>)
    requires s.runs.Keys == s.log.Keys == done.Keys && id in s.runs
    ensures ApplyEach(s, done[id := c]).log == ApplyEach(s, done).log[id := EntryAfterAny(EntryOf(s, id), c).stream]
  {
  }

  /** One more run undergoes its change. */
  lemma ApplyOneMore(s: Store, done: Changes, id: RunId, c: Option<Change>)
    requires s.runs.Keys == s.log.Keys == done.Keys && id in s.runs
    requires done[id] == None
    ensures EntryOf(ApplyEach(s, done), id) == EntryOf(s, id)
    ensures ApplyEach(s, done[id := c]) ==
            if c.None? then ApplyEach(s, done) else Apply(ApplyEach(s, done), id, c.value)
  {
    ApplyAtRuns(s, done, id, c);
    ApplyAtLog(s, done, id, c);
    var before := ApplyEach(s, done);
    assert EntryOf(before, id) == EntryOf(s, id);
    if c.None? {
      assert before.runs[id := before.runs[id]] == before.runs;
      assert before.log[id := before.log[id]] == before.log;
    }
  }

  /** The first i runs in order have undergone their changes, the others none. */
  ghost predicate UpTo(order: seq<RunId>, i: nat, changes: Changes, done: Changes)
    requires i <= |order|
  {
    && done.Keys == changes.Keys
    && forall id | id in done :: done[id] == if id in order[..i] then changes[id] else None
  }

  lemma UpToGrows(order: seq<RunId>, i: nat, changes: Changes, done: Changes)
    requires i < |order| && UpTo(order, i, changes, done) && order[i] in changes
    ensures UpTo(order, i + 1, changes, done[order[i] := changes[order[i]]])
  {
    assert order[..i + 1] == order[..i] + [order[i]];
  }

  /** One iteration of either loop. */
  lemma NextUpTo(s: Store, i: nat, changes: Changes, done: Changes)
    requires RunStore.Valid(s) && changes.Keys == s.runs.Keys
    requires i < |s.order| && UpTo(s.order, i, changes, done)
    ensures
      var id := s.order[i];
      && EntryOf(ApplyEach(s, done), id) == EntryOf(s, id)
      && UpTo(s.order, i + 1, changes, done[id := changes[id]])
      && ApplyEach(s, done[id := changes[id]]) ==
         if changes[id].None? then ApplyEach(s, done) else Apply(ApplyEach(s, done), id, changes[id].value)
  {
    assert s.order[i] !in s.order[..i];
    ApplyOneMore(s, done, s.order[i], changes[s.order[i]]);
    UpToGrows(s.order, i, changes, done);
  }

  lemma UpToEnd(order: seq<RunId>, changes: Changes, done: Changes)
    requires UpTo(order, |order|, changes, done)
    requires forall id | id in changes :: id in order
    ensures done == changes
  {
    assert order[..|order|] == order;
  }

  /** Once a run is handed out, the rest of the table stays as it is. */
  lemma NothingAfterTake(order: seq<RunId>, runs: map<RunId, Run>, w: WorkerId, grant: real, k: nat, done: Changes)
    requires forall j | 0 <= j < |order| :: order[j] in runs
    requires k < |order| && k == FirstClaimable(order, runs)
    requires UpTo(order, k + 1, DispatchChanges(order, runs, w, grant), done)
    ensures done == DispatchChanges(order, runs, w, grant)
  {
    assert order[..k + 1] == order[..k] + [order[k]];
  }

  /** One iteration of the second loop: a run is handed out and all changes are made, or the loop goes on. */
  lemma DispatchNext(s: Store, w: WorkerId, grant: real, i: nat, changes: Changes, done: Changes, done': Changes)
    requires RunStore.Valid(s) && i < |s.order| && i <= FirstClaimable(s.order, s.runs)
    requires changes == DispatchChanges(s.order, s.runs, w, grant)
    requires UpTo(s.order, i, changes, done) && done' == done[s.order[i] := changes[s.order[i]]]
    ensures
      var id, k := s.order[i], FirstClaimable(s.order, s.runs);
      && ApplyEach(s, done).runs[id] == s.runs[id]
      && if Claimable(s.runs[id]) then
           i == k && ApplyEach(s, changes) == Apply(ApplyEach(s, done), id, Take(w, grant))
         else
           && i < k && UpTo(s.order, i + 1, changes, done')
           && ApplyEach(s, done') ==
              if s.runs[id].status.Enqueued? then Apply(ApplyEach(s, done), id, Cancel) else ApplyEach(s, done)
  {
    var id := s.order[i];
    DispatchChangeAt(s.order, s.runs, w, grant, i);
    NextUpTo(s, i, changes, done);
    assert EntryOf(ApplyEach(s, done), id) == EntryOf(s, id);
    if Claimable(s.runs[id]) {
      NothingAfterTake(s.order, s.runs, w, grant, i, done');
      assert done' == changes;
    } else {
      assert changes[id] == if s.runs[id].status.Enqueued? then Some(Cancel) else None;
    }
  }

  class InMemoryRunProcessingStore {
    const table: Table
    const events: InMemoryRunEventLog

    ghost predicate Valid()
      reads table, events
    {
      Consistent(table, events)
    }

    ghost function State(): Store
      reads table, events
    {
      Snapshot(table, events)
    }

    constructor (table: Table, events: InMemoryRunEventLog)
      requires Consistent(table, events)
      ensures Valid() && this.table == table && this.events == events
    {
      this.table, this.events := table, events;
    }

    /** Validates and merges the request into the record; emits nothing. */
    method TransitionLocked(id: RunId, target: StatusCode, request: TransitionRequest)
      returns (r: Result<(), StoreError>)
      modifies table
      ensures table.order == old(table.order)
      ensures id !in old(table.runs) ==> r == Failure(MissingKey(id))
      ensures id in old(table.runs) && !Allowed(old(table.runs)[id].status, target) ==>
        r == Failure(InvalidTransition(old(table.runs)[id].status, target))
      ensures r.Failure? ==> table.runs == old(table.runs)
      ensures id in old(table.runs) && Allowed(old(table.runs)[id].status, target) ==>
        r == Success(()) && table.runs == old(table.runs)[id := Merge(old(table.runs)[id], target, request)]
    {
      if id !in table.runs {
        return Failure(MissingKey(id));
      }
      var run := table.runs[id];
      if !Allowed(run.status, target) {
        return Failure(InvalidTransition(run.status, target));
      }
      var result := ValueOrFallback(request.result, run.result);
      var error := ValueOrFallback(request.error, run.error);
      var worker := ValueOrFallback(request.workerId, run.claimedWorker);
      var expiration := ValueOrFallback(request.expiration, run.expiration);
      var retryCount := ValueOrFallback(request.retryCount, run.retryCount);
      table.Set(id, Run(run.id, target, result, error, worker, expiration, retryCount, run.cancelRequested));
      return Success(());
    }

    method GetStatus(id: RunId) returns (r: Result<Run, StoreError>)
      requires Valid()
      ensures r == RunStore.GetStatus(State(), id)
    {
      if id !in table.runs {
        return Failure(RunNotFound(id));
      }
      return Success(table.runs[id]);
    }

    method Heartbeat(id: RunId, w: WorkerId, now: real) returns (r: Result<Run, StoreError>)
      requires Valid()
      modifies table, events
      ensures Valid()
      ensures Outcome(State(), r) == RunStore.Heartbeat(old(State()), id, w, now)
    {
      if id !in table.runs {
        return Failure(MissingKey(id));
      }
      var run := table.runs[id];
      if run.status == StatusCode.Cancelled {
        return Success(run);
      }
      if run.status != StatusCode.Running {
        return Success(run);
      }
      if run.claimedWorker != Some(w) {
        var _ := events.Append(id, ClaimLost(w));
        ChangeApplied(old(State()), id, NoteLost(w), State());
        return Failure(LeaseLost(id, w));
      }
      var updated := Run(run.id, StatusCode.Running, run.result, run.error, Some(w), Some(NewExpiration(now)),
                         run.retryCount, run.cancelRequested);
      table.Set(id, updated);
      ChangeApplied(old(State()), id, Renew(w, now), State());
      return Success(updated);
    }

    method SetFailed(id: RunId, fault: Fault) returns (r: Result<(), StoreError>)
      requires Valid()
      modifies table, events
      ensures Valid()
      ensures Outcome(State(), r) == RunStore.SetFailed(old(State()), id, fault)
    {
      r := TransitionLocked(id, StatusCode.Failed, NO_CHANGE.(error := Set(Some(fault))));
      if r.Success? {
        var _ := events.Append(id, RunFailed(fault));
        ChangeApplied(old(State()), id, Fail(fault), State());
      }
    }

    method SetSucceeded(id: RunId, result: string) returns (r: Result<(), StoreError>)
      requires Valid()
      modifies table, events
      ensures Valid()
      ensures Outcome(State(), r) == RunStore.SetSucceeded(old(State()), id, result)
    {
      r := TransitionLocked(id, StatusCode.Succeeded, NO_CHANGE.(result := Set(Some(result))));
      if r.Success? {
        var _ := events.Append(id, RunSucceeded);
        ChangeApplied(old(State()), id, Succeed(result), State());
      }
    }

    method SetCancelled(id: RunId) returns (r: Result<(), StoreError>)
      requires Valid()
      modifies table, events
      ensures Valid()
      ensures Outcome(State(), r) == RunStore.SetCancelled(old(State()), id)
    {
      r := TransitionLocked(id, StatusCode.Cancelled, NO_CHANGE);
      if r.Success? {
        var _ := events.Append(id, RunCancelled);
        ChangeApplied(old(State()), id, Cancel, State());
      }
    }

    /**
     * RUNNING, TIMED_OUT, RETRYING, ENQUEUED in one go. `run` is the record the caller has read; only
     * its retry count is used. Anything but a running run is refused at the first transition.
     */
    method RecoverExpiredRun(id: RunId, run: Run, w: WorkerId) returns (r: Result<(), StoreError>)
      modifies table
      ensures table.order == old(table.order)
      ensures id !in old(table.runs) ==> r == Failure(MissingKey(id))
      ensures id in old(table.runs) && !old(table.runs)[id].status.Running? ==>
        r == Failure(InvalidTransition(old(table.runs)[id].status, TimedOut))
      ensures r.Failure? ==> table.runs == old(table.runs)
      ensures id in old(table.runs) && old(table.runs)[id].status.Running? ==>
        && r == Success(())
        && table.runs == old(table.runs)[id := old(table.runs)[id].(
                                           status := StatusCode.Enqueued,
                                           claimedWorker := Some(w),
                                           retryCount := run.retryCount + 1)]
    {
      var request := NO_CHANGE.(workerId := Set(Some(w)));
      r := TransitionLocked(id, TimedOut, request);
      if r.Failure? {
        return;
      }
      r := TransitionLocked(id, Retrying, request.(retryCount := Set(run.retryCount + 1)));
      r := TransitionLocked(id, StatusCode.Enqueued, request);
    }

    /** One iteration of the loop that recovers lapsed leases. */
    method SweepRun(id: RunId, w: WorkerId, now: real)
      requires Valid() && id in table.runs
      modifies table, events
      ensures Valid()
      ensures
        var c := SweepChange(old(table.runs[id]), w, now);
        State() == if c.None? then old(State()) else Apply(old(State()), id, c.value)
    {
      var run := table.runs[id];
      if run.status == StatusCode.Running && HasClaimExpired(run, now) {
        var _ := events.Append(id, ClaimExpired);
        var _ := RecoverExpiredRun(id, run, w);
        ChangeApplied(old(State()), id, Recover(w, now), State());
      }
    }

    /** The loop that recovers lapsed leases. */
    method Sweep(w: WorkerId, t: Readings)
      requires Valid() && table.runs.Keys <= t.checks.Keys
      modifies table, events
      ensures Valid()
      ensures State() == AfterSweep(old(State()), w, t)
    {
      ghost var s := State();
      ghost var changes := SweepChanges(s.runs, w, t.checks);
      ghost var done := NoChanges(s);
      ApplyNone(s);
      for i := 0 to |table.order|
        invariant Valid()
        invariant table.order == s.order
        invariant UpTo(s.order, i, changes, done)
        invariant State() == ApplyEach(s, done)
      {
        var id := table.order[i];
        NextUpTo(s, i, changes, done);
        SweepRun(id, w, t.checks[id]);
        done := done[id := changes[id]];
      }
      UpToEnd(s.order, changes, done);
    }

    /** One iteration of the loop that cancels and hands out. */
    method DispatchRun(id: RunId, w: WorkerId, grant: real) returns (claimed: Option<ClaimedRun>)
      requires Valid() && id in table.runs
      modifies table, events
      ensures Valid()
      ensures Claimable(old(table.runs[id])) ==>
        && State() == Apply(old(State()), id, Take(w, grant))
        && claimed == Some(ClaimedRun(id, State().runs[id]))
      ensures !Claimable(old(table.runs[id])) ==> claimed == None
      ensures !Claimable(old(table.runs[id])) ==>
        State() == if old(table.runs[id]).status.Enqueued? then Apply(old(State()), id, Cancel) else old(State())
    {
      var run := table.runs[id];
      claimed := None;
      if run.status == StatusCode.Enqueued {
        if run.cancelRequested {
          var _ := SetCancelled(id);
        } else {
          var _ := TransitionLocked(id, StatusCode.Running,
            NO_CHANGE.(workerId := Set(Some(w)), expiration := Set(Some(NewExpiration(grant)))));
          var _ := events.Append(id, RunClaimed(w));
          ChangeApplied(old(State()), id, Take(w, grant), State());
          claimed := Some(ClaimedRun(id, table.runs[id]));
        }
      }
    }

    /** The loop that cancels and hands out. */
    method Dispatch(w: WorkerId, t: Readings) returns (claimed: Option<ClaimedRun>)
      requires Valid()
      modifies table, events
      ensures Valid()
      ensures State() == AfterDispatch(old(State()), w, t)
      ensures
        var k := FirstClaimable(old(table.order), old(table.runs));
        if k < |old(table.order)| then
            claimed == Some(ClaimedRun(old(table.order)[k], State().runs[old(table.order)[k]]))
        else claimed == None
    {
      ghost var s := State();
      ghost var changes := DispatchChanges(s.order, s.runs, w, t.grant);
      ghost var done := NoChanges(s);
      ApplyNone(s);
      for i := 0 to |table.order|
        invariant Valid()
        invariant table.order == s.order
        invariant i <= FirstClaimable(s.order, s.runs)
        invariant UpTo(s.order, i, changes, done)
        invariant State() == ApplyEach(s, done)
      {
        var id := table.order[i];
        DispatchNext(s, w, t.grant, i, changes, done, done[id := changes[id]]);
        claimed := DispatchRun(id, w, t.grant);
        if claimed.Some? {
          return;
        }
        done := done[id := changes[id]];
      }
      UpToEnd(s.order, changes, done);
      claimed := None;
    }

    method ClaimRun(w: WorkerId, t: Readings) returns (claimed: Option<ClaimedRun>)
      requires Valid() && table.runs.Keys <= t.checks.Keys
      modifies table, events
      ensures Valid()
      ensures State() == AfterClaim(old(State()), w, t)
      ensures claimed.None? <==> Claimed(old(State()), w, t).None?
      ensures claimed.Some? ==> Claimed(old(State()), w, t) == Some(claimed.value.id)
      ensures claimed.Some? ==> claimed.value.run == State().runs[claimed.value.id]
    {
      Sweep(w, t);
      claimed := Dispatch(w, t);
    }
  }
}
