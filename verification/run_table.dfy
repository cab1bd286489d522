/** The dictionary of run records that both stores share. */
module RunTable {
  import opened Wrappers
  import opened RunDomain
  import opened EventLog
  import opened RunStore

  class Table {
    var order: seq<RunId>
    var runs: map<RunId, Run>

    constructor ()
      ensures order == [] && runs == map[]
    {
      order, runs := [], map[];
    }

    /** `d[id] = r`: a new key goes to the end of the iteration order, an old one keeps its place. */
    method Set(id: RunId, r: Run)
      modifies this
      ensures runs == old(runs)[id := r]
      ensures order == if id in old(runs) then old(order) else old(order) + [id]
    {
      if id !in runs {
        order := order + [id];
      }
      runs := runs[id := r];
    }
  }

  ghost function Snapshot(table: Table, events: InMemoryRunEventLog): Store
    reads table, events
  {
    Store(table.order, table.runs, events.streams)
  }

  /** The table and the log are well formed and hold the same ids. */
  ghost predicate Consistent(table: Table, events: InMemoryRunEventLog)
    reads table, events
  {
    events.Valid() && RunStore.Valid(Snapshot(table, events))
  }

  /** A record and an event written for the same id are one change of the store. */
  lemma ChangeApplied(s: Store, id: RunId, c: Change, s': Store)
    requires RunStore.Valid(s) && id in s.runs
    requires s'.order == s.order && s'.runs == s.runs[id := RunAfter(s.runs[id], c)]
    requires Emitted(c).None? ==> s'.log == s.log
    requires Emitted(c).Some? ==> s'.log == s.log[id := Appended(id, s.log[id], Emitted(c).value)]
    ensures s' == Apply(s, id, c) && RunStore.Valid(s')
  {
    ApplyKeepsValid(s, id, c);
    if Emitted(c).None? {
      assert s.log[id := s.log[id]] == s.log;
    }
  }

  lemma CreateApplied(s: Store, id: RunId, user: string, s': Store)
    requires RunStore.Valid(s) && id !in s.runs
    requires s'.order == s.order + [id] && s'.runs == s.runs[id := BareRun(id, StatusCode.Created, None, None)]
    requires id in s'.log && s'.log == s.log[id := s'.log[id]]
    requires s'.log[id] == Appended(id, [], RunCreated(user))
    ensures s' == CreateRun(s, id, user) && RunStore.Valid(s')
  {
    CreateKeepsValid(s, id, user);
  }
}
