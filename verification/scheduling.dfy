/** Cancellation intent is final, and waiting runs are served in bounded order. */
module Scheduling {
  import opened Wrappers
  import opened RunDomain
  import opened EventLog
  import opened RunStore
  import opened RunLife
  import opened Cluster
  import opened ClusterSteps
  import opened ClaimFacts
  import opened Executions

  ghost predicate EverHandsOut(s: System, actions: seq<Action>, id: RunId)
    requires Executes(s, actions)
    decreases |actions|
  {
    && actions != []
    && (HandsOut(s, actions[0], id) || EverHandsOut(Next(s, actions[0]), actions[1..], id))
  }

  // ----- intent is final

  /** A doomed run that has stayed so, with no claim logged in between. */
  ghost predicate StillDoomed(e: Entry, e': Entry) {
    && Doomed(e'.run)
    && CountClaimed(e'.stream) == CountClaimed(e.stream)
    && (Terminal(e.run.status) ==> Terminal(e'.run.status))
    && (e.run.cancelRequested ==> e'.run.cancelRequested || Terminal(e'.run.status))
  }

  lemma ChangeKeepsDoomed(e: Entry, c: Change)
    requires Doomed(e.run) && Permitted(e.run, c)
    ensures StillDoomed(e, EntryAfter(e, c))
  {
    DoomedStays(e.run, c);
    var event := Emitted(c);
    if event.Some? {
      assert !event.value.RunClaimed?;
      assert EntryAfter(e, c).stream == Appended(e.run.id, e.stream, event.value);
      CountsAppended(e.run.id, e.stream, event.value);
    }
  }

  lemma {:induction false} ChangesKeepDoomed(l: Life, cs: seq<Change>)
    requires Doomed(l.entry.run) && PermittedAll(l.entry.run, cs)
    ensures StillDoomed(l.entry, LifeAfterAll(l, cs).entry)
    decreases |cs|
  {
    if cs != [] {
      ChangeKeepsDoomed(l.entry, cs[0]);
      ChangesKeepDoomed(LifeAfter(l, cs[0]), cs[1..]);
    }
  }

  lemma DoomedNotHandedOut(s: Store, w: WorkerId, t: Readings, id: RunId)
    requires RunStore.Valid(s) && s.runs.Keys <= t.checks.Keys && id in s.runs && Doomed(s.runs[id])
    ensures Claimed(s, w, t) != Some(id)
  {
    if Claimed(s, w, t) == Some(id) {
      HandoutNeedsWaiting(s, w, t, id);
    }
  }

  lemma StepKeepsDoomed(s: System, a: Action, id: RunId)
    requires Enabled(s, a) && id in s.store.runs && Doomed(s.store.runs[id])
    ensures !HandsOut(s, a, id)
    ensures StillDoomed(EntryOf(s.store, id), EntryOf(Next(s, a).store, id))
  {
    if IsClaim(a) {
      DoomedNotHandedOut(s.store, a.w, a.act.t, id);
    }
    StepEntry(s, a, id);
    ChangesKeepDoomed(LifeOf(s, id), ChangesOf(s, a, id));
  }

  /** A doomed run is never handed out again, by any worker, whatever leases expire. */
  lemma {:induction false} DoomedNeverClaimed(s: System, actions: seq<Action>, id: RunId)
    requires Executes(s, actions) && Wellformed(s) && id in s.store.runs && Doomed(s.store.runs[id])
    ensures !EverHandsOut(s, actions, id)
    ensures id in After(s, actions).store.runs && id in After(s, actions).store.log
    ensures StillDoomed(EntryOf(s.store, id), EntryOf(After(s, actions).store, id))
    decreases |actions|
  {
    if actions != [] {
      StepKeepsDoomed(s, actions[0], id);
      StepKeepsWellformed(s, actions[0]);
      DoomedNeverClaimed(Next(s, actions[0]), actions[1..], id);
    }
  }

  lemma AcceptedIntentDooms(s: Store, id: RunId)
    requires RunStore.Valid(s) && id in s.runs
    requires s.runs[id].status == StatusCode.Enqueued || s.runs[id].status == StatusCode.Running
    requires RequestCancellation(s, id).result == Success(true)
    ensures RequestCancellation(s, id).store == Apply(s, id, AskCancel)
    ensures Doomed(Apply(s, id, AskCancel).runs[id]) && Apply(s, id, AskCancel).runs[id].cancelRequested
    ensures CountClaimed(Apply(s, id, AskCancel).log[id]) == CountClaimed(s.log[id])
  {
    ApplyAt(s, id, AskCancel, id);
    ChangeKeepsNoClaim(EntryOf(s, id));
  }

  lemma ChangeKeepsNoClaim(e: Entry)
    ensures CountClaimed(EntryAfter(e, AskCancel).stream) == CountClaimed(e.stream)
  {
    CountsAppended(e.run.id, e.stream, CancelAsked);
  }

  /** Strong pre-claim cancellation: an accepted request on a waiting or running run is final. */
  lemma AcceptedIntentIsFinal(s: System, id: RunId, actions: seq<Action>)
    requires Wellformed(s) && id in s.store.runs
    requires s.store.runs[id].status == StatusCode.Enqueued || s.store.runs[id].status == StatusCode.Running
    requires RequestCancellation(s.store, id).result == Success(true)
    requires Enabled(s, RequestCancel(id)) && Executes(Next(s, RequestCancel(id)), actions)
    ensures !EverHandsOut(Next(s, RequestCancel(id)), actions, id)
    ensures
      var last := After(Next(s, RequestCancel(id)), actions).store;
      && id in last.runs && id in last.log
      && (last.runs[id].cancelRequested || Terminal(last.runs[id].status))
      && CountClaimed(last.log[id]) == CountClaimed(s.store.log[id])
  {
    AcceptedIntentDooms(s.store, id);
    StepKeepsWellformed(s, RequestCancel(id));
    DoomedNeverClaimed(Next(s, RequestCancel(id)), actions, id);
  }

  /** Intent accepted while a run is still CREATED is lost when it is enqueued; otherwise it is kept. */
  lemma AcceptedIntentIsKeptIff(s: Store, id: RunId)
    requires RunStore.Valid(s) && id in s.runs && Visible(s.runs[id].status)
    requires RequestCancellation(s, id).result == Success(true)
    ensures
      var asked := RequestCancellation(s, id).store;
      && asked.runs.Keys == asked.log.Keys && id in MarkEnqueued(asked, id).store.runs
      && var r := MarkEnqueued(asked, id).store.runs[id];
      && (Doomed(r) <==> s.runs[id].status != StatusCode.Created)
      && (Claimable(r) <==> s.runs[id].status == StatusCode.Created)
  {
  }

  // ----- bounded wait

  predicate Waits(r: Run) {
    r.status == StatusCode.Created || r.status == StatusCode.Enqueued
  }

  predicate StillWaits(runs: map<RunId, Run>, id: RunId) {
    id in runs && Waits(runs[id])
  }

  /** How many of the first n runs are still to be claimed. */
  function Ahead(order: seq<RunId>, runs: map<RunId, Run>, n: nat): nat
    requires n <= |order|
  {
    if n == 0 then 0 else Ahead(order, runs, n - 1) + if StillWaits(runs, order[n - 1]) then 1 else 0
  }

  /** None of the first n runs starts to wait. */
  ghost predicate NoneStarts(order: seq<RunId>, runs: map<RunId, Run>, runs': map<RunId, Run>, n: nat)
    requires n <= |order|
  {
    forall i | 0 <= i < n :: StillWaits(runs', order[i]) ==> StillWaits(runs, order[i])
  }

  lemma {:induction false} AheadShrinks(order: seq<RunId>, runs: map<RunId, Run>,
                                        later: seq<RunId>, runs': map<RunId, Run>, n: nat, k: nat)
    requires n <= |order| && order <= later && NoneStarts(order, runs, runs', n)
    requires 0 <= k <= n && (k < n ==> StillWaits(runs, order[k]) && !StillWaits(runs', order[k]))
    ensures Ahead(later, runs', n) + (if k < n then 1 else 0) <= Ahead(order, runs, n)
  {
    if n > 0 {
      assert later[n - 1] == order[n - 1];
      AheadShrinks(order, runs, later, runs', n - 1, if k < n then k else n - 1);
    }
  }

  /** No lease is found expired in this step. */
  ghost predicate Calm(s: System, a: Action)
    requires Enabled(s, a)
  {
    IsClaim(a) ==> forall id | id in s.store.runs :: !Lapsed(s.store.runs[id], a.act.t.checks[id])
  }

  lemma PositionOf(s: Store, id: RunId) returns (i: nat)
    requires RunStore.Valid(s) && id in s.runs
    ensures i < |s.order| && s.order[i] == id
  {
    assert id in s.order;
    i :| i < |s.order| && s.order[i] == id;
  }

  /** Only a lapsed lease puts a run back among the waiting ones. */
  lemma CalmClaimAt(s: Store, w: WorkerId, t: Readings, id: RunId)
    requires RunStore.Valid(s) && s.runs.Keys <= t.checks.Keys && id in s.runs
    requires !Lapsed(s.runs[id], t.checks[id])
    ensures id in AfterClaim(s, w, t).runs
    ensures Waits(AfterClaim(s, w, t).runs[id]) ==> Waits(s.runs[id])
  {
    var i := PositionOf(s, id);
    ClaimIsComplete(s, w, t, i, Handout(s, w, t), AfterClaim(s, w, t));
  }

  lemma TouchStarts(s: Store, touch: Touch, id: RunId)
    requires s.runs.Keys == s.log.Keys && id in s.runs && Visible(s.runs[id].status)
    requires touch.Touch? ==> touch.id in s.runs && Permitted(s.runs[touch.id], touch.change)
    requires touch.Touch? ==> !touch.change.Recover?
    ensures Waits(ApplyTouch(s, touch).runs[id]) ==> Waits(s.runs[id])
  {
  }

  lemma CalmStepStarts(s: System, a: Action, id: RunId)
    requires Enabled(s, a) && Calm(s, a) && id in s.store.runs
    requires Visible(s.store.runs[id].status)
    ensures Waits(Next(s, a).store.runs[id]) ==> Waits(s.store.runs[id])
  {
    if IsClaim(a) {
      CalmClaimAt(s.store, a.w, a.act.t, id);
    } else if !a.CreateRun? {
      StepTouches(s, a);
      TouchIsTimed(s, a);
      TouchStarts(s.store, TouchOf(s, a), id);
    }
  }

  /** A claim that leaves a waiting run waiting has taken one ahead of it. */
  lemma ClaimTakesOneAhead(s: Store, w: WorkerId, t: Readings, p: nat, s': Store) returns (k: nat)
    requires RunStore.Valid(s) && s.runs.Keys <= t.checks.Keys && p < |s.order|
    requires s' == AfterClaim(s, w, t)
    requires forall id | id in s.runs :: !Lapsed(s.runs[id], t.checks[id])
    requires s.runs[s.order[p]].status == StatusCode.Enqueued
    requires StillWaits(s'.runs, s.order[p])
    ensures k < p && StillWaits(s.runs, s.order[k]) && !StillWaits(s'.runs, s.order[k])
  {
    k := Handout(s, w, t);
    ClaimIsComplete(s, w, t, p, k, s');
    assert k < p;
    ClaimIsComplete(s, w, t, k, k, s');
  }

  function ClaimsIn(actions: seq<Action>): nat {
    if actions == [] then 0 else (if IsClaim(actions[0]) then 1 else 0) + ClaimsIn(actions[1..])
  }

  ghost predicate CalmThroughout(s: System, actions: seq<Action>)
    requires Executes(s, actions)
    decreases |actions|
  {
    actions == [] || (Calm(s, actions[0]) && CalmThroughout(Next(s, actions[0]), actions[1..]))
  }

  ghost predicate StaysEnqueued(s: System, actions: seq<Action>, id: RunId)
    requires Executes(s, actions)
    decreases |actions|
  {
    && id in s.store.runs && s.store.runs[id].status == StatusCode.Enqueued
    && (actions == [] || StaysEnqueued(Next(s, actions[0]), actions[1..], id))
  }

  /** The number of runs ahead of the one at position p. */
  ghost function AheadOf(s: System, p: nat): nat
    requires Wellformed(s) && p < |s.store.order|
  {
    Ahead(s.store.order, s.store.runs, p)
  }

  ghost predicate AllVisible(s: System) {
    forall id | id in s.store.runs :: Visible(s.store.runs[id].status)
  }

  lemma CalmStepsAhead(s: System, a: Action, p: nat)
    requires Enabled(s, a) && Calm(s, a) && AllVisible(s) && p < |s.store.order|
    ensures NoneStarts(s.store.order, s.store.runs, Next(s, a).store.runs, p)
  {
    forall i | 0 <= i < p
      ensures StillWaits(Next(s, a).store.runs, s.store.order[i]) ==> StillWaits(s.store.runs, s.store.order[i])
    {
      CalmStepStarts(s, a, s.store.order[i]);
    }
  }

  lemma ClaimStepAhead(s: System, a: Action, p: nat) returns (k: nat)
    requires Enabled(s, a) && Calm(s, a) && IsClaim(a) && p < |s.store.order|
    requires s.store.runs[s.store.order[p]].status == StatusCode.Enqueued
    requires StillWaits(Next(s, a).store.runs, s.store.order[p])
    ensures k < p
    ensures StillWaits(s.store.runs, s.store.order[k]) && !StillWaits(Next(s, a).store.runs, s.store.order[k])
  {
    ClaimNext(s, a);
    k := ClaimTakesOneAhead(s.store, a.w, a.act.t, p, Next(s, a).store);
  }

  lemma OneStepAhead(s: System, a: Action, p: nat)
    requires Enabled(s, a) && Calm(s, a) && AllVisible(s) && p < |s.store.order|
    requires s.store.order <= Next(s, a).store.order
    requires s.store.runs[s.store.order[p]].status == StatusCode.Enqueued
    requires StillWaits(Next(s, a).store.runs, s.store.order[p])
    ensures Ahead(Next(s, a).store.order, Next(s, a).store.runs, p) + (if IsClaim(a) then 1 else 0) <=
            Ahead(s.store.order, s.store.runs, p)
  {
    CalmStepsAhead(s, a, p);
    var k := p;
    if IsClaim(a) {
      k := ClaimStepAhead(s, a, p);
    }
    AheadShrinks(s.store.order, s.store.runs, Next(s, a).store.order, Next(s, a).store.runs, p, k);
  }

  lemma NextIsVisible(s: System, a: Action)
    requires Enabled(s, a) && AllVisible(s)
    ensures AllVisible(Next(s, a))
  {
    StoreAfterValid(s, a);
    forall id | id in Next(s, a).store.runs
      ensures Visible(Next(s, a).store.runs[id].status)
    {
      if id in s.store.runs {
        StepLife(s, a, id);
        ChangesFollowRules(LifeOf(s, id), ChangesOf(s, a, id));
      }
    }
  }

  /**
   * While no lease expires, a run that stays enqueued through some claims has at least as many
   * runs ahead of it: with k runs ahead it is claimed or cancelled within k + 1 claims.
   */
  lemma {:induction false} WaitIsBounded(s: System, actions: seq<Action>, p: nat)
    requires Executes(s, actions) && Wellformed(s) && AllVisible(s) && p < |s.store.order|
    requires CalmThroughout(s, actions) && StaysEnqueued(s, actions, s.store.order[p])
    ensures ClaimsIn(actions) <= AheadOf(s, p)
    decreases |actions|
  {
    if actions != [] {
      var s' := Next(s, actions[0]);
      assert StaysEnqueued(s', actions[1..], s.store.order[p]);
      StepKeepsWellformed(s, actions[0]);
      OneStepAhead(s, actions[0], p);
      NextIsVisible(s, actions[0]);
      WaitIsBounded(s', actions[1..], p);
    }
  }

  /** The same for any reachable state: one claim more than runs ahead, and the run has moved on. */
  lemma MoreClaimsThanAhead(s: System, actions: seq<Action>, p: nat)
    requires Reachable(s, false) && Executes(s, actions) && CalmThroughout(s, actions)
    requires Wellformed(s) && p < |s.store.order| && ClaimsIn(actions) > AheadOf(s, p)
    ensures !StaysEnqueued(s, actions, s.store.order[p])
  {
    ReachableIsGood(s, false);
    forall id | id in s.store.runs
      ensures Visible(s.store.runs[id].status)
    {
      assert Sound(LifeOf(s, id), s.clock, false);
    }
    if StaysEnqueued(s, actions, s.store.order[p]) {
      WaitIsBounded(s, actions, p);
    }
  }
}
