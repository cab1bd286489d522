/** The API side of the run store. */
module IntakeStore {
  import opened Wrappers
  import opened RunDomain
  import opened EventLog
  import opened RunStore
  import opened RunTable

  class InMemoryRunIntakeStore {
    const table: Table
    const events: InMemoryRunEventLog

    ghost predicate Valid()
      reads table, events
    {
      Consistent(table, events)
    }

    ghost function State(): Store
      reads table, events
    {
      Snapshot(table, events)
    }

    constructor (table: Table, events: InMemoryRunEventLog)
      requires Consistent(table, events)
      ensures Valid() && this.table == table && this.events == events
    {
      this.table, this.events := table, events;
    }

    /** The caller supplies the fresh id that `uuid4` would draw. */
    method CreateRun(id: RunId, user: string) returns (r: Run)
      requires Valid() && id !in table.runs
      modifies table, events
      ensures Valid()
      ensures State() == RunStore.CreateRun(old(State()), id, user)
      ensures r == State().runs[id]
    {
      r := Run(id, Created, None, None, None, None, 0, false);
      table.Set(id, r);
      events.InitRunStream(id);
      var _ := events.Append(id, RunCreated(user));
      CreateApplied(old(State()), id, user, State());
    }

    method GetStatus(id: RunId) returns (r: Result<Run, StoreError>)
      requires Valid()
      ensures r == RunStore.GetStatus(State(), id)
    {
      if id !in table.runs {
        return Failure(RunNotFound(id));
      }
      return Success(table.runs[id]);
    }

    method MarkEnqueued(id: RunId) returns (r: Result<(), StoreError>)
      requires Valid()
      modifies table, events
      ensures Valid()
      ensures Outcome(State(), r) == RunStore.MarkEnqueued(old(State()), id)
    {
      if id !in table.runs {
        return Failure(MissingKey(id));
      }
      var run := table.runs[id];
      if !Allowed(run.status, StatusCode.Enqueued) {
        return Failure(InvalidTransition(run.status, StatusCode.Enqueued));
      }
      table.Set(id, Run(run.id, StatusCode.Enqueued, run.result, run.error, None, None, 0, false));
      var _ := events.Append(id, RunEnqueued);
      ChangeApplied(old(State()), id, Enqueue, State());
      return Success(());
    }

    method MarkCancelled(id: RunId) returns (r: Result<bool, StoreError>)
      requires Valid()
      modifies table, events
      ensures Valid()
      ensures Outcome(State(), r) == RunStore.MarkCancelled(old(State()), id)
    {
      if id !in table.runs {
        return Failure(RunNotFound(id));
      }
      var run := table.runs[id];
      if Terminal(run.status) {
        return Success(false);
      }
      if !Allowed(run.status, StatusCode.Cancelled) {
        return Failure(InvalidTransition(run.status, StatusCode.Cancelled));
      }
      table.Set(id, Run(run.id, StatusCode.Cancelled, run.result, run.error, None, None, 0, false));
      var _ := events.Append(id, RunCancelled);
      ChangeApplied(old(State()), id, MarkCancel, State());
      return Success(true);
    }

    method RequestCancellation(id: RunId) returns (r: Result<bool, StoreError>)
      requires Valid()
      modifies table, events
      ensures Valid()
      ensures Outcome(State(), r) == RunStore.RequestCancellation(old(State()), id)
    {
      if id !in table.runs {
        return Failure(RunNotFound(id));
      }
      var run := table.runs[id];
      if Terminal(run.status) {
        return Success(false);
      }
      if run.cancelRequested {
        return Success(false);
      }
      table.Set(id, Run(run.id, run.status, run.result, run.error, run.claimedWorker,
                        run.expiration, run.retryCount, true));
      var _ := events.Append(id, CancelAsked);
      ChangeApplied(old(State()), id, AskCancel, State());
      return Success(true);
    }

    method GetEvents(id: RunId, after: Option<int>) returns (r: Result<Stream, StoreError>)
      requires Valid()
      ensures r.Failure? <==> id !in table.runs
      ensures r.Success? ==> r.value == ListAfter(State().log[id], after)
      ensures r.Success? && after.Some? && 0 <= after.value <= |State().log[id]| ==>
            r.value == State().log[id][after.value..]
    {
      if id !in table.runs {
        return Failure(RunNotFound(id));
      }
      var found := events.List(id, after);
      return Success(found.value);
    }
  }
}
