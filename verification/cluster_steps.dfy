/** Every step of the system, seen from one run, is a short list of permitted changes. */
module ClusterSteps {
  import opened Wrappers
  import opened RunDomain
  import opened RunStore
  import opened RunLife
  import opened WorkerMachine
  import opened Cluster

  lemma StepKeepsWellformed(s: System, a: Action)
    requires Enabled(s, a)
    ensures Wellformed(Next(s, a))
    ensures Next(s, a).store.order == if a.CreateRun? then s.store.order + [a.id] else s.store.order
  {
    StoreAfterValid(s, a);
  }

  // ----- one run across one step

  ghost predicate Unmarked(cs: seq<Change>) {
    forall c | c in cs :: !c.MarkCancel?
  }

  /** The changes are permitted one after the other, in time, and lead to the given entry. */
  ghost predicate Undergoes(l: Life, cs: seq<Change>, e: Entry, from: real, to: real) {
    && LifeAfterAll(l, cs).entry == e
    && PermittedAll(l.entry.run, cs)
    && Timed(cs, from, to)
  }

  lemma OneChange(l: Life, b: Option<Change>, clock: real, later: real)
    requires b.Some? ==> Permitted(l.entry.run, b.value) && clock <= TimeOf(b.value, clock) <= later
    requires clock <= later
    ensures Undergoes(l, AsSeq(b), EntryAfterAny(l.entry, b), clock, later)
  {
    if b.Some? {
      assert AsSeq(b)[1..] == [];
    }
  }

  lemma TwoChanges(l: Life, a: Option<Change>, b: Option<Change>, clock: real, later: real)
    requires a.Some? ==> Permitted(l.entry.run, a.value) && clock <= TimeOf(a.value, clock) <= later
    requires b.Some? ==> Permitted(EntryAfterAny(l.entry, a).run, b.value)
    requires b.Some? ==> b.value.Cancel? || TimeOf(b.value, later) == later
    requires clock <= later
    ensures Undergoes(l, AsSeq(a) + AsSeq(b), EntryAfterAny(EntryAfterAny(l.entry, a), b), clock, later)
  {
    var cs := AsSeq(a) + AsSeq(b);
    if a.Some? {
      assert cs[0] == a.value && cs[1..] == AsSeq(b);
      OneChange(LifeAfter(l, a.value), b, TimeOf(a.value, clock), later);
    } else {
      assert cs == AsSeq(b);
      OneChange(l, b, clock, later);
    }
  }

  lemma DispatchPermitted(order: seq<RunId>, runs: map<RunId, Run>, w: WorkerId, grant: real, id: RunId)
    requires forall i | 0 <= i < |order| :: order[i] in runs
    requires id in runs
    ensures
      var c := DispatchChanges(order, runs, w, grant)[id];
      c.Some? ==> (c == Some(Take(w, grant)) || c == Some(Cancel)) && Permitted(runs[id], c.value)
  {
  }

  lemma ClaimEntry(s: Store, w: WorkerId, t: Readings, id: RunId)
    requires RunStore.Valid(s) && s.runs.Keys <= t.checks.Keys && id in s.runs
    ensures EntryOf(AfterClaim(s, w, t), id) ==
            EntryAfterAny(EntryAfterAny(EntryOf(s, id), FirstChange(s, w, t, id)), SecondChange(s, w, t, id))
    ensures EntryOf(AfterSweep(s, w, t), id) == EntryAfterAny(EntryOf(s, id), FirstChange(s, w, t, id))
  {
    ApplyEachAt(s, SweepChanges(s.runs, w, t.checks), id);
    var swept := AfterSweep(s, w, t);
    ApplyEachAt(swept, DispatchChanges(swept.order, swept.runs, w, t.grant), id);
  }

  /** The two changes of a claim are permitted one after the other, in time. */
  lemma ClaimPermitted(s: Store, clock: real, w: WorkerId, t: Readings, r: Run, id: RunId)
    requires RunStore.Valid(s) && s.runs.Keys <= t.checks.Keys && id in s.runs
    requires clock <= t.checks[id] <= t.grant && r == s.runs[id]
    ensures
      var a := FirstChange(s, w, t, id);
      a.Some? ==> Permitted(r, a.value) && clock <= TimeOf(a.value, clock) <= t.grant
    ensures
      var b := SecondChange(s, w, t, id);
      b.Some? ==>
        && Permitted(EntryAfterAny(EntryOf(s, id), FirstChange(s, w, t, id)).run, b.value)
        && (b.value.Cancel? || TimeOf(b.value, t.grant) == t.grant)
  {
    ClaimEntry(s, w, t, id);
    DispatchPermitted(s.order, AfterSweep(s, w, t).runs, w, t.grant, id);
  }

  /** A claim recovers a run whose lease is over, and then takes it, cancels it or leaves it. */
  lemma ClaimLife(s: Store, clock: real, w: WorkerId, t: Readings, l: Life, id: RunId)
    requires RunStore.Valid(s) && s.runs.Keys <= t.checks.Keys && id in s.runs
    requires clock <= t.checks[id] <= t.grant && l.entry == EntryOf(s, id)
    ensures Undergoes(l, AsSeq(FirstChange(s, w, t, id)) + AsSeq(SecondChange(s, w, t, id)),
                      EntryOf(AfterClaim(s, w, t), id), clock, t.grant)
  {
    ClaimEntry(s, w, t, id);
    ClaimPermitted(s, clock, w, t, l.entry.run, id);
    TwoChanges(l, FirstChange(s, w, t, id), SecondChange(s, w, t, id), clock, t.grant);
  }

  /** The change a step makes to the run it touches takes place at the step's own time. */
  lemma TouchIsTimed(s: System, a: Action)
    requires Enabled(s, a)
    ensures
      var touch := TouchOf(s, a);
      touch.Touch? ==>
        && touch.id in s.store.runs && Permitted(s.store.runs[touch.id], touch.change)
        && s.clock <= TimeOf(touch.change, s.clock) <= ClockAfter(s, a)
        && (touch.change.MarkCancel? ==> a.DeprecatedCancel?)
  {
  }

  lemma TouchLife(l: Life, s: Store, touch: Touch, id: RunId, from: real, to: real)
    requires s.runs.Keys == s.log.Keys && id in s.runs && l.entry == EntryOf(s, id) && from <= to
    requires touch.Touch? ==>
      touch.id in s.runs && Permitted(s.runs[touch.id], touch.change) && from <= TimeOf(touch.change, from) <= to
    ensures Undergoes(l, ChangesFrom(touch, id), EntryOf(ApplyTouch(s, touch), id), from, to)
  {
    if touch.Touch? {
      ApplyAt(s, touch.id, touch.change, id);
    }
    var c := if touch.Touch? && touch.id == id then Some(touch.change) else None;
    assert ChangesFrom(touch, id) == AsSeq(c);
    OneChange(l, c, from, to);
  }

  lemma ClaimNext(s: System, a: Action)
    requires Enabled(s, a) && IsClaim(a)
    ensures s.store.runs.Keys <= a.act.t.checks.Keys
    ensures Next(s, a).store == AfterClaim(s.store, a.w, a.act.t)
  {
  }

  /** A step in which `claim_run` returns the run. */
  ghost predicate HandsOut(s: System, a: Action, id: RunId)
    requires Enabled(s, a)
  {
    IsClaim(a) && Claimed(s.store, a.w, a.act.t) == Some(id)
  }

  lemma ClaimNextWorkers(s: System, a: Action)
    requires Enabled(s, a) && IsClaim(a)
    ensures
      var wk := Next(s, a).workers[a.w];
      && Next(s, a).workers == s.workers[a.w := wk]
      && wk == s.workers[a.w].(phase := wk.phase)
      && (wk.phase.Holding? || wk.phase.Looping?)
  {
  }

  /** The claimer holds exactly the run that is handed out. */
  lemma ClaimerHolds(s: System, a: Action, id: RunId)
    requires Enabled(s, a) && IsClaim(a)
    ensures HandsOut(s, a, id) <==> Next(s, a).workers[a.w].phase == Holding(id)
  {
  }

  lemma ClaimStepEntry(s: System, a: Action, id: RunId)
    requires Enabled(s, a) && IsClaim(a) && id in s.store.runs
    ensures Undergoes(LifeOf(s, id), ChangesOf(s, a, id), EntryOf(Next(s, a).store, id), s.clock, Next(s, a).clock)
  {
    ClaimLife(s.store, s.clock, a.w, a.act.t, LifeOf(s, id), id);
  }

  lemma TouchStepEntry(s: System, a: Action, id: RunId)
    requires Enabled(s, a) && !a.CreateRun? && !IsClaim(a) && id in s.store.runs
    ensures Undergoes(LifeOf(s, id), ChangesOf(s, a, id), EntryOf(Next(s, a).store, id), s.clock, Next(s, a).clock)
  {
    TouchIsTimed(s, a);
    StepTouches(s, a);
    TouchLife(LifeOf(s, id), s.store, TouchOf(s, a), id, s.clock, ClockAfter(s, a));
  }

  lemma CreateStepEntry(s: System, a: Action, id: RunId)
    requires Enabled(s, a) && a.CreateRun? && id in s.store.runs
    ensures Undergoes(LifeOf(s, id), ChangesOf(s, a, id), EntryOf(Next(s, a).store, id), s.clock, Next(s, a).clock)
  {
    OneChange(LifeOf(s, id), None, s.clock, s.clock);
  }

  lemma StepEntry(s: System, a: Action, id: RunId)
    requires Enabled(s, a) && id in s.store.runs
    ensures Undergoes(LifeOf(s, id), ChangesOf(s, a, id), EntryOf(Next(s, a).store, id), s.clock, Next(s, a).clock)
  {
    if IsClaim(a) {
      ClaimStepEntry(s, a, id);
    } else if a.CreateRun? {
      CreateStepEntry(s, a, id);
    } else {
      TouchStepEntry(s, a, id);
    }
  }

  /** A run that exists before a step undergoes exactly the changes of that step. */
  lemma StepLife(s: System, a: Action, id: RunId)
    requires Enabled(s, a) && id in s.store.runs
    ensures Wellformed(Next(s, a))
    ensures LifeOf(Next(s, a), id) == LifeAfterAll(LifeOf(s, id), ChangesOf(s, a, id))
    ensures PermittedAll(s.store.runs[id], ChangesOf(s, a, id))
    ensures Timed(ChangesOf(s, a, id), s.clock, Next(s, a).clock)
  {
    StepKeepsWellformed(s, a);
    StepEntry(s, a, id);
    LifeAfterAllParts(LifeOf(s, id), ChangesOf(s, a, id));
    assert Next(s, a).grants[id] == GrantsAfterAll(s.grants[id], ChangesOf(s, a, id));
  }

  lemma UnmarkedTwo(a: Option<Change>, b: Option<Change>)
    requires a.Some? ==> !a.value.MarkCancel?
    requires b.Some? ==> !b.value.MarkCancel?
    ensures Unmarked(AsSeq(a) + AsSeq(b))
  {
  }

  lemma ClaimUnmarked(s: Store, w: WorkerId, t: Readings, id: RunId)
    requires RunStore.Valid(s) && s.runs.Keys <= t.checks.Keys && id in s.runs
    ensures Unmarked(AsSeq(FirstChange(s, w, t, id)) + AsSeq(SecondChange(s, w, t, id)))
  {
    DispatchPermitted(s.order, AfterSweep(s, w, t).runs, w, t.grant, id);
    UnmarkedTwo(FirstChange(s, w, t, id), SecondChange(s, w, t, id));
  }

  /** Only the deprecated call resets a record by cancelling it. */
  lemma StepUnmarked(s: System, a: Action, id: RunId)
    requires Enabled(s, a) && id in s.store.runs && !a.DeprecatedCancel?
    ensures Unmarked(ChangesOf(s, a, id))
  {
    if IsClaim(a) {
      ClaimUnmarked(s.store, a.w, a.act.t, id);
    } else {
      TouchIsTimed(s, a);
    }
  }

  // ----- the worker that takes a step, and the others

  lemma OtherStep(s: System, a: Action, w: WorkerId)
    requires Enabled(s, a) && w in s.workers && !(a.Work? && a.w == w)
    ensures Next(s, a).workers[w] == s.workers[w]
  {
  }

  lemma OwnStep(s: System, a: Action)
    requires Enabled(s, a) && a.Work?
    ensures Next(s, a).workers[a.w] == WorkerStep(s.store, s.clock, a.w, s.workers[a.w], a.act).1
    ensures Next(s, a).store == WorkerStep(s.store, s.clock, a.w, s.workers[a.w], a.act).0
  {
  }
}
