/** What holds of every run in every reachable state, and over whole executions. */
module Executions {
  import opened RunDomain
  import opened EventLog
  import opened RunStore
  import opened RunLife
  import opened Cluster
  import opened ClusterSteps

  // ----- soundness of every reachable state

  /** Every run is sound; `strict` when the deprecated cancellation has not been used. */
  ghost predicate Good(s: System, strict: bool) {
    && Wellformed(s)
    && 0.0 <= s.clock
    && forall id | id in s.store.runs :: Sound(LifeOf(s, id), s.clock, strict)
  }

  lemma NewRunIsSound(s: System, a: Action, id: RunId, strict: bool)
    requires Enabled(s, a) && Wellformed(Next(s, a)) && 0.0 <= s.clock
    requires id in Next(s, a).store.runs && id !in s.store.runs
    ensures Sound(LifeOf(Next(s, a), id), Next(s, a).clock, strict)
  {
    StoreAfterValid(s, a);
    CreatedIsSound(id, a.user, s.clock, strict);
  }

  lemma StepKeepsSound(s: System, a: Action, id: RunId, strict: bool)
    requires Enabled(s, a) && id in s.store.runs && Sound(LifeOf(s, id), s.clock, strict)
    requires strict ==> !a.DeprecatedCancel?
    requires Wellformed(Next(s, a))
    ensures Sound(LifeOf(Next(s, a), id), Next(s, a).clock, strict)
  {
    StepLife(s, a, id);
    if strict {
      StepUnmarked(s, a, id);
    }
    ChangesKeepSound(LifeOf(s, id), ChangesOf(s, a, id), s.clock, Next(s, a).clock, strict);
  }

  lemma StepKeepsGood(s: System, a: Action, strict: bool)
    requires Enabled(s, a) && Good(s, strict)
    requires strict ==> !a.DeprecatedCancel?
    ensures Good(Next(s, a), strict)
  {
    StepKeepsWellformed(s, a);
    var s' := Next(s, a);
    forall id | id in s'.store.runs
      ensures Sound(LifeOf(s', id), s'.clock, strict)
    {
      if id in s.store.runs {
        StepKeepsSound(s, a, id, strict);
      } else {
        NewRunIsSound(s, a, id, strict);
      }
    }
  }

  lemma {:induction false} ExecutionKeepsGood(s: System, actions: seq<Action>, strict: bool)
    requires Good(s, strict) && Executes(s, actions)
    requires strict ==> WithoutDeprecated(actions)
    ensures Good(After(s, actions), strict)
    decreases |actions|
  {
    if actions != [] {
      assert actions[0] in actions;
      StepKeepsGood(s, actions[0], strict);
      ExecutionKeepsGood(Next(s, actions[0]), actions[1..], strict);
    }
  }

  lemma InitialIsGood(s: System)
    requires Initial(s)
    ensures Good(s, true) && Good(s, false)
  {
  }

  /** A state some execution leads to. */
  ghost predicate Reachable(s: System, strict: bool) {
    exists s0, actions ::
      && Initial(s0) && Executes(s0, actions) && After(s0, actions) == s
      && (strict ==> WithoutDeprecated(actions))
  }

  lemma ReachableIsGood(s: System, strict: bool)
    requires Reachable(s, strict)
    ensures Good(s, strict)
  {
    var s0, actions :|
      && Initial(s0) && Executes(s0, actions) && After(s0, actions) == s
      && (strict ==> WithoutDeprecated(actions));
    ExecutionKeepsGood(s0, actions, strict);
  }

  /** The run table is a cache of the event log. */
  lemma LogDeterminesTable(s: System, id: RunId)
    requires Reachable(s, true) && id in s.store.runs
    ensures id in s.store.log && AgreesFully(EntryOf(s.store, id))
  {
    ReachableIsGood(s, true);
    assert Sound(LifeOf(s, id), s.clock, true);
  }

  /** With the deprecated cancellation in use, only cancelled runs may differ, in two fields. */
  lemma LogDeterminesTableOr(s: System, id: RunId)
    requires Reachable(s, false) && id in s.store.runs
    ensures id in s.store.log
    ensures s.store.runs[id].status == Fold(s.store.log[id]).status
    ensures s.store.runs[id].error == Fold(s.store.log[id]).error
    ensures s.store.runs[id].status != StatusCode.Cancelled ==> AgreesFully(EntryOf(s.store, id))
  {
    ReachableIsGood(s, false);
    assert Sound(LifeOf(s, id), s.clock, false);
  }

  /** `retry_count` counts lost leases, and claims match it. */
  lemma AttemptsAreConserved(s: System, id: RunId)
    requires Reachable(s, true) && id in s.store.runs
    ensures id in s.store.log
    ensures
      var r, stream := s.store.runs[id], s.store.log[id];
      && r.retryCount == CountExpired(stream)
      && (r.status == StatusCode.Created ==> CountClaimed(stream) == 0)
      && (r.status == StatusCode.Enqueued ==> CountClaimed(stream) == r.retryCount)
      && (r.status in {StatusCode.Running, Succeeded, Failed} ==> CountClaimed(stream) == r.retryCount + 1)
      && (r.status == StatusCode.Cancelled ==> CountClaimed(stream) - r.retryCount in {0, 1})
  {
    ReachableIsGood(s, true);
    assert Sound(LifeOf(s, id), s.clock, true);
  }

  /** With the deprecated cancellation in use, only cancelled runs may have lost their retry count. */
  lemma AttemptsAreConservedOr(s: System, id: RunId)
    requires Reachable(s, false) && id in s.store.runs
    ensures id in s.store.log
    ensures
      var r, expired, claimed := s.store.runs[id], CountExpired(s.store.log[id]), CountClaimed(s.store.log[id]);
      && (r.status != StatusCode.Cancelled ==> r.retryCount == expired)
      && (r.status == StatusCode.Created ==> claimed == 0)
      && (r.status == StatusCode.Enqueued ==> claimed == expired)
      && (r.status in {StatusCode.Running, Succeeded, Failed} ==> claimed == expired + 1)
      && (r.status == StatusCode.Cancelled ==> claimed - expired in {0, 1})
  {
    ReachableIsGood(s, false);
    assert Sound(LifeOf(s, id), s.clock, false);
  }

  /** What the table looks like between any two store calls. */
  lemma TableIsWellFormed(s: System, id: RunId)
    requires Reachable(s, false)
    ensures s.store.runs.Keys == s.store.log.Keys
    ensures id in s.store.runs ==>
      var r := s.store.runs[id];
      && r.id == id
      && r.status != TimedOut && r.status != Retrying
      && (r.status == StatusCode.Running ==> r.claimedWorker.Some? && r.expiration.Some? && r.expiration.value > 0.0)
      && CountClosing(s.store.log[id]) == (if Terminal(r.status) then 1 else 0)
  {
    ReachableIsGood(s, false);
    if id in s.store.runs {
      assert Sound(LifeOf(s, id), s.clock, false);
    }
  }

  // ----- lease arithmetic

  /** Successive claims of a run are more than a lease apart, and more than a lease after the last renewal. */
  lemma ClaimsAreSpaced(s: System, id: RunId, i: nat)
    requires Reachable(s, false) && id in s.grants && 0 < i < |s.grants[id]|
    ensures s.grants[id][i].at > s.grants[id][i - 1].renewed + LEASE_SECONDS
    ensures s.grants[id][i].at > s.grants[id][i - 1].at + LEASE_SECONDS
  {
    ReachableIsGood(s, false);
    assert Sound(LifeOf(s, id), s.clock, false);
    NeighboursSpaced(s.grants[id], s.clock, i);
  }

  lemma NeighboursSpaced(grants: seq<Grant>, clock: real, i: nat)
    requires Spaced(grants, clock) && 0 < i < |grants|
    ensures grants[i].at > grants[i - 1].renewed + LEASE_SECONDS
    ensures grants[i].at > grants[i - 1].at + LEASE_SECONDS
  {
  }

  lemma RetriesBoundTime(s: System, id: RunId)
    requires Reachable(s, false) && id in s.store.runs && s.store.runs[id].retryCount > 0
    ensures id in s.grants && s.grants[id] != []
    ensures LEASE_SECONDS * (s.store.runs[id].retryCount as real) < s.clock - s.grants[id][0].at
  {
    ReachableIsGood(s, false);
    assert Sound(LifeOf(s, id), s.clock, false);
    RetriesTakeLeases(LifeOf(s, id), s.clock);
  }

  // ----- steps and the rule table

  lemma {:induction false} ChangesFollowRules(l: Life, cs: seq<Change>)
    requires Visible(l.entry.run.status) && PermittedAll(l.entry.run, cs)
    ensures Visible(LifeAfterAll(l, cs).entry.run.status)
    ensures Connected(l.entry.run.status, LifeAfterAll(l, cs).entry.run.status)
    decreases |cs|
  {
    if cs == [] {
      ConnectedRefl(l.entry.run.status);
    } else {
      var next := LifeAfter(l, cs[0]);
      ChangeFollowsRules(l.entry.run, cs[0]);
      ChangesFollowRules(next, cs[1..]);
      ConnectedTrans(l.entry.run.status, next.entry.run.status, LifeAfterAll(l, cs).entry.run.status);
    }
  }

  /** Every step takes every run along a path of the rule table. */
  lemma StepsFollowRules(s: System, a: Action, id: RunId)
    requires Reachable(s, false) && Enabled(s, a) && id in s.store.runs
    ensures Connected(s.store.runs[id].status, Next(s, a).store.runs[id].status)
  {
    ReachableIsGood(s, false);
    assert Sound(LifeOf(s, id), s.clock, false);
    StepLife(s, a, id);
    ChangesFollowRules(LifeOf(s, id), ChangesOf(s, a, id));
  }

  // ----- streams only grow, and terminal runs absorb

  lemma {:induction false} ChangesExtend(l: Life, cs: seq<Change>)
    requires Numbered(l.entry.run.id, l.entry.stream)
    ensures l.entry.stream <= LifeAfterAll(l, cs).entry.stream
    decreases |cs|
  {
    if cs != [] {
      EntryAfterNumbered(l.entry, cs[0]);
      ChangesExtend(LifeAfter(l, cs[0]), cs[1..]);
    }
  }

  ghost predicate OnlyExecutorEvents(before: Stream, later: Stream) {
    && before <= later
    && forall i | |before| <= i < |later| :: later[i].kind.ExecutorEvent?
  }

  lemma {:induction false} ChangesAbsorbed(l: Life, cs: seq<Change>)
    requires Terminal(l.entry.run.status) && PermittedAll(l.entry.run, cs)
    ensures LifeAfterAll(l, cs).entry.run == l.entry.run
    ensures OnlyExecutorEvents(l.entry.stream, LifeAfterAll(l, cs).entry.stream)
    decreases |cs|
  {
    if cs != [] {
      TerminalAbsorbs(l.entry.run, cs[0]);
      ChangesAbsorbed(LifeAfter(l, cs[0]), cs[1..]);
    }
  }

  lemma StepAbsorbed(s: System, a: Action, id: RunId)
    requires Enabled(s, a) && id in s.store.runs && Terminal(s.store.runs[id].status)
    ensures Wellformed(Next(s, a))
    ensures Next(s, a).store.runs[id] == s.store.runs[id]
    ensures OnlyExecutorEvents(s.store.log[id], Next(s, a).store.log[id])
  {
    StepLife(s, a, id);
    ChangesAbsorbed(LifeOf(s, id), ChangesOf(s, a, id));
  }

  /** Once a run is over, its record never changes and the stores never write about it again. */
  lemma {:induction false} TerminalForever(s: System, actions: seq<Action>, id: RunId)
    requires Executes(s, actions) && Wellformed(s) && id in s.store.runs
    requires Terminal(s.store.runs[id].status)
    ensures Wellformed(After(s, actions)) && id in After(s, actions).store.runs
    ensures After(s, actions).store.runs[id] == s.store.runs[id]
    ensures OnlyExecutorEvents(s.store.log[id], After(s, actions).store.log[id])
    decreases |actions|
  {
    if actions != [] {
      StepAbsorbed(s, actions[0], id);
      TerminalForever(Next(s, actions[0]), actions[1..], id);
    }
  }

  // ----- reading the log of a run while the system goes on

  /** The stream of a run in every state of an execution. */
  ghost function StreamsAlong(s: System, actions: seq<Action>, id: RunId): seq<Stream>
    requires Executes(s, actions) && Wellformed(s) && id in s.store.runs
    decreases |actions|
  {
    if actions == [] then [s.store.log[id]]
    else
      StepKeepsWellformed(s, actions[0]);
      [s.store.log[id]] + StreamsAlong(Next(s, actions[0]), actions[1..], id)
  }

  lemma {:induction false} StreamsGrow(s: System, actions: seq<Action>, id: RunId)
    requires Executes(s, actions) && Wellformed(s) && id in s.store.runs
    ensures id in After(s, actions).store.log
    ensures |StreamsAlong(s, actions, id)| == |actions| + 1
    ensures StreamsAlong(s, actions, id)[0] == s.store.log[id]
    ensures StreamsAlong(s, actions, id)[|actions|] == After(s, actions).store.log[id]
    ensures Growing(id, StreamsAlong(s, actions, id))
    decreases |actions|
  {
    if actions != [] {
      var s' := Next(s, actions[0]);
      StepLife(s, actions[0], id);
      ChangesExtend(LifeOf(s, id), ChangesOf(s, actions[0], id));
      StreamsGrow(s', actions[1..], id);
      GrowingCons(id, s.store.log[id], StreamsAlong(s', actions[1..], id));
    }
  }

  lemma GrowingCons(id: RunId, first: Stream, rest: seq<Stream>)
    requires Growing(id, rest) && Numbered(id, first) && (rest != [] ==> first <= rest[0])
    ensures Growing(id, [first] + rest)
  {
    var all := [first] + rest;
    forall i | 0 <= i < |all| - 1
      ensures all[i] <= all[i + 1]
    {
      if i > 0 {
        assert all[i] == rest[i - 1] && all[i + 1] == rest[i - 1 + 1];
      }
    }
  }

  /** What a client is shown that asks at the given moments. */
  function SeenAt(streams: seq<Stream>, moments: seq<nat>): (seen: seq<Stream>)
    requires forall i | 0 <= i < |moments| :: moments[i] < |streams|
    ensures |seen| == |moments|
    ensures forall i | 0 <= i < |moments| :: seen[i] == streams[moments[i]]
    decreases |moments|
  {
    if moments == [] then []
    else
      var n := |moments| - 1;
      SeenAt(streams, moments[..n]) + [streams[moments[n]]]
  }

  lemma SeenGrow(id: RunId, streams: seq<Stream>, moments: seq<nat>)
    requires Growing(id, streams)
    requires forall i | 0 <= i < |moments| :: moments[i] < |streams|
    requires forall i, j | 0 <= i < j < |moments| :: moments[i] <= moments[j]
    ensures Growing(id, SeenAt(streams, moments))
  {
    var seen := SeenAt(streams, moments);
    forall i | 0 <= i < |seen| - 1
      ensures seen[i] <= seen[i + 1]
    {
      GrowingPrefix(id, streams, moments[i], moments[i + 1]);
    }
  }

  /** A client that polls at any increasing choice of moments of any execution misses nothing. */
  lemma PollingAnExecution(s: System, actions: seq<Action>, id: RunId, streams: seq<Stream>, moments: seq<nat>)
    requires Executes(s, actions) && Wellformed(s) && id in s.store.runs
    requires streams == StreamsAlong(s, actions, id)
    requires forall i | 0 <= i < |moments| :: moments[i] <= |actions|
    requires forall i, j | 0 <= i < j < |moments| :: moments[i] <= moments[j]
    requires moments != []
    ensures |streams| == |actions| + 1
    ensures Polled(SeenAt(streams, moments)) == streams[moments[|moments| - 1]]
  {
    StreamsGrow(s, actions, id);
    SeenGrow(id, streams, moments);
    PollingLosesNothing(id, SeenAt(streams, moments));
  }

  lemma {:induction false} GrowingPrefix(id: RunId, streams: seq<Stream>, i: nat, j: nat)
    requires Growing(id, streams) && i <= j < |streams|
    ensures streams[i] <= streams[j]
    decreases j - i
  {
    if i < j {
      GrowingPrefix(id, streams, i, j - 1);
      assert streams[j - 1] <= streams[j - 1 + 1];
    }
  }
}
