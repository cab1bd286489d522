/**
 * What the store calls write, field by field and event by event, without the functions that the
 * rest of the model is built from.
 */
module Records {
  import opened Wrappers
  import opened RunDomain
  import opened EventLog
  import opened RunStore
  import opened ClaimFacts
  import opened ClusterSteps

  /** One record and one event are written for a run, and nothing else. */
  ghost predicate Writes(s: Store, s': Store, id: RunId, r: Run, kind: EventKind)
    requires id in s.log
  {
    && s'.order == s.order
    && s'.runs == s.runs[id := r]
    && s'.log == s.log[id := s.log[id] + [RunEvent(id, |s.log[id]| + 1, kind)]]
  }

  lemma CreateWrites(s: Store, id: RunId, user: string)
    ensures CreateRun(s, id, user).order == s.order + [id]
    ensures CreateRun(s, id, user).runs == s.runs[id := Run(id, StatusCode.Created, None, None, None, None, 0, false)]
    ensures CreateRun(s, id, user).log == s.log[id := [RunEvent(id, 1, RunCreated(user))]]
  {
    assert Appended(id, [], RunCreated(user)) == [RunEvent(id, 1, RunCreated(user))];
  }

  /** Enqueuing keeps result and error only; the other fields take their defaults. */
  lemma EnqueueWrites(s: Store, id: RunId)
    requires RunStore.Valid(s) && id in s.runs && s.runs[id].status == StatusCode.Created
    ensures MarkEnqueued(s, id).result == Success(())
    ensures
      var r := s.runs[id];
      Writes(s, MarkEnqueued(s, id).store, id,
             Run(id, StatusCode.Enqueued, r.result, r.error, None, None, 0, false), RunEnqueued)
  {
  }

  /** A request on a run that is not over sets the flag; a second one, or a late one, does nothing. */
  lemma AskCancelWrites(s: Store, id: RunId)
    requires RunStore.Valid(s) && id in s.runs
    ensures
      var r, o := s.runs[id], RequestCancellation(s, id);
      if r.status in {Succeeded, Failed, StatusCode.Cancelled} || r.cancelRequested then
        o.result == Success(false) && o.store == s
      else
        && o.result == Success(true)
        && Writes(s, o.store, id,
                  Run(id, r.status, r.result, r.error, r.claimedWorker, r.expiration, r.retryCount, true), CancelAsked)
  {
  }

  lemma MarkCancelWrites(s: Store, id: RunId)
    requires RunStore.Valid(s) && id in s.runs
    ensures
      var r, o := s.runs[id], MarkCancelled(s, id);
      if r.status in {Succeeded, Failed, StatusCode.Cancelled} then o.result == Success(false) && o.store == s
      else if r.status in {StatusCode.Created, StatusCode.Enqueued, StatusCode.Running} then
        && o.result == Success(true)
        && Writes(s, o.store, id,
                  Run(id, StatusCode.Cancelled, r.result, r.error, None, None, 0, false), RunCancelled)
      else
        o.result == Failure(InvalidTransition(r.status, StatusCode.Cancelled)) && o.store == s
  {
  }

  /** The three finalizing calls keep every field but the status and what they are called with. */
  lemma FinalWrites(s: Store, id: RunId, result: string, fault: Fault)
    requires RunStore.Valid(s) && id in s.runs
    ensures
      var r := s.runs[id];
      r.status == StatusCode.Running ==>
        && SetSucceeded(s, id, result).result == Success(())
        && Writes(s, SetSucceeded(s, id, result).store, id,
                  Run(id, Succeeded, Some(result), r.error,
                      r.claimedWorker, r.expiration, r.retryCount, r.cancelRequested),
                  RunSucceeded)
        && SetFailed(s, id, fault).result == Success(())
        && Writes(s, SetFailed(s, id, fault).store, id,
                  Run(id, Failed, r.result, Some(fault),
                      r.claimedWorker, r.expiration, r.retryCount, r.cancelRequested),
                  RunFailed(fault))
    ensures
      var r := s.runs[id];
      r.status in {StatusCode.Created, StatusCode.Enqueued, StatusCode.Running} ==>
        && SetCancelled(s, id).result == Success(())
        && Writes(s, SetCancelled(s, id).store, id,
                  Run(id, StatusCode.Cancelled, r.result, r.error,
                      r.claimedWorker, r.expiration, r.retryCount, r.cancelRequested),
                  RunCancelled)
  {
  }

  /** A heartbeat of the owner renews the lease by 30 seconds and answers with the renewed record. */
  lemma HeartbeatWrites(s: Store, id: RunId, w: WorkerId, now: real)
    requires RunStore.Valid(s) && id in s.runs
    ensures
      var r, o := s.runs[id], Heartbeat(s, id, w, now);
      if r.status != StatusCode.Running then o.result == Success(r) && o.store == s
      else if r.claimedWorker == Some(w) then
        var renewed :=
          Run(id, StatusCode.Running, r.result, r.error, Some(w), Some(now + 30.0), r.retryCount, r.cancelRequested);
        && o.result == Success(renewed)
        && o.store.order == s.order && o.store.runs == s.runs[id := renewed] && o.store.log == s.log
      else
        o.result == Failure(LeaseLost(id, w)) && Writes(s, o.store, id, r, ClaimLost(w))
  {
    if s.runs[id].status == StatusCode.Running && s.runs[id].claimedWorker == Some(w) {
      assert s.log[id := s.log[id]] == s.log;
    }
  }

  // ----- claim_run

  /** The lease of a running run is over at a clock reading; no expiry, or zero, means never. */
  predicate LeaseOver(r: Run, now: real) {
    r.status == StatusCode.Running && r.expiration.Some? && r.expiration.value != 0.0 && r.expiration.value < now
  }

  /** The events of one run that a claim appends, numbered on. */
  function Numbering(id: RunId, from: nat, kinds: seq<EventKind>): seq<RunEvent>
    decreases |kinds|
  {
    if kinds == [] then [] else [RunEvent(id, from + 1, kinds[0])] + Numbering(id, from + 1, kinds[1..])
  }

  /** What a claim makes of one run, and what it logs about it. */
  predicate ClaimWrites(r: Run, r': Run, kinds: seq<EventKind>, w: WorkerId, now: real, grant: real, taken: bool) {
    var over := LeaseOver(r, now);
    var expired := if over then [ClaimExpired] else [];
    var retries := r.retryCount + if over then 1 else 0;
    var worker := if over then Some(w) else r.claimedWorker;
    if taken then
      && r' == Run(r.id, StatusCode.Running, r.result, r.error, Some(w), Some(grant + 30.0), retries, false)
      && kinds == expired + [RunClaimed(w)]
    else if (over || r.status == StatusCode.Enqueued) && r'.status == StatusCode.Cancelled then
      && r.cancelRequested
      && r' == Run(r.id, StatusCode.Cancelled, r.result, r.error, worker, r.expiration, retries, true)
      && kinds == expired + [RunCancelled]
    else if over then
      && r' == Run(r.id, StatusCode.Enqueued, r.result, r.error, Some(w), r.expiration, retries, r.cancelRequested)
      && kinds == [ClaimExpired]
    else
      r' == r && kinds == []
  }

  function KindOf(c: Option<Change>): seq<EventKind> {
    if c.None? || Emitted(c.value).None? then [] else [Emitted(c.value).value]
  }

  /** Two changes of one run, one after the other, append their events in that order. */
  lemma TwoEvents(e: Entry, a: Option<Change>, b: Option<Change>)
    ensures EntryAfterAny(EntryAfterAny(e, a), b).stream ==
            e.stream + Numbering(e.run.id, |e.stream|, KindOf(a) + KindOf(b))
  {
    OneEvent(e, a);
    var mid := EntryAfterAny(e, a);
    OneEvent(mid, b);
    assert mid.run.id == e.run.id;
    NumberingSplits(e.run.id, |e.stream|, KindOf(a), KindOf(b));
  }

  lemma OneEvent(e: Entry, c: Option<Change>)
    ensures EntryAfterAny(e, c).stream == e.stream + Numbering(e.run.id, |e.stream|, KindOf(c))
    ensures |EntryAfterAny(e, c).stream| == |e.stream| + |KindOf(c)| && EntryAfterAny(e, c).run.id == e.run.id
  {
    if KindOf(c) != [] {
      assert Numbering(e.run.id, |e.stream|, KindOf(c)) == [RunEvent(e.run.id, |e.stream| + 1, KindOf(c)[0])];
    }
  }

  lemma NumberingSplits(id: RunId, from: nat, a: seq<EventKind>, b: seq<EventKind>)
    requires |a| <= 1
    ensures Numbering(id, from, a + b) == Numbering(id, from, a) + Numbering(id, from + |a|, b)
  {
    if a == [] {
      assert a + b == b;
    } else {
      assert (a + b)[1..] == b && Numbering(id, from + 1, a[1..]) == [];
    }
  }

  lemma ClaimWritesBy(
    r: Run, r': Run, a: Option<Change>, b: Option<Change>, w: WorkerId, now: real, grant: real, taken: bool)
    requires a == SweepChange(r, w, now) && Effect(r, r', w, now, grant, taken)
    requires r' == Dispatched(Dispatched(r, a), b)
    requires b.Some? ==> b == Some(Take(w, grant)) || b == Some(Cancel)
    requires b.Some? ==> Permitted(Dispatched(r, a), b.value)
    requires r.status != StatusCode.Cancelled || b.None?
    ensures ClaimWrites(r, r', KindOf(a) + KindOf(b), w, now, grant, taken)
  {
  }

  /** The second change of a claim, in terms of the record the first one leaves. */
  lemma SecondChangeIs(s: Store, w: WorkerId, t: Readings, id: RunId)
    requires RunStore.Valid(s) && s.runs.Keys <= t.checks.Keys && id in s.runs
    ensures
      var b := SecondChange(s, w, t, id);
      b.Some? ==>
        && (b == Some(Take(w, t.grant)) || b == Some(Cancel))
        && Permitted(Dispatched(s.runs[id], FirstChange(s, w, t, id)), b.value)
        && s.runs[id].status != StatusCode.Cancelled
  {
    ClaimEntry(s, w, t, id);
    DispatchPermitted(s.order, AfterSweep(s, w, t).runs, w, t.grant, id);
  }

  lemma ClaimWritesEntry(e: Entry, e': Entry, a: Option<Change>, b: Option<Change>)
    requires e' == EntryAfterAny(EntryAfterAny(e, a), b)
    ensures e'.run == Dispatched(Dispatched(e.run, a), b)
    ensures e'.stream == e.stream + Numbering(e.run.id, |e.stream|, KindOf(a) + KindOf(b))
  {
    TwoEvents(e, a, b);
  }

  /** The whole effect of `claim_run` on any run: its record and what is logged about it. */
  lemma ClaimWritesRecord(s: Store, w: WorkerId, t: Readings, id: RunId, s': Store, taken: bool)
    returns (kinds: seq<EventKind>)
    requires RunStore.Valid(s) && s.runs.Keys <= t.checks.Keys && id in s.runs
    requires s' == AfterClaim(s, w, t) && taken == (Claimed(s, w, t) == Some(id))
    ensures id in s'.runs && id in s'.log
    ensures ClaimWrites(s.runs[id], s'.runs[id], kinds, w, t.checks[id], t.grant, taken)
    ensures s'.log[id] == s.log[id] + Numbering(id, |s.log[id]|, kinds)
  {
    var a, b := FirstChange(s, w, t, id), SecondChange(s, w, t, id);
    ClaimEntry(s, w, t, id);
    ClaimEffect(s, w, t, id, s', taken);
    SecondChangeIs(s, w, t, id);
    ClaimWritesEntry(EntryOf(s, id), EntryOf(s', id), a, b);
    ClaimWritesBy(s.runs[id], s'.runs[id], a, b, w, t.checks[id], t.grant, taken);
    kinds := KindOf(a) + KindOf(b);
  }

  /**
   * When a lease is over: a claim that looks at the clock after the expiry recovers the run, one
   * that looks at it before or just then leaves the record alone, and a run without an expiry, or
   * with expiry zero, is never recovered.
   */
  lemma LeaseEndsAtExpiry(s: Store, w: WorkerId, t: Readings, id: RunId)
    requires RunStore.Valid(s) && s.runs.Keys <= t.checks.Keys && id in s.runs
    requires s.runs[id].status == StatusCode.Running
    ensures id in AfterClaim(s, w, t).runs
    ensures
      var r, r' := s.runs[id], AfterClaim(s, w, t).runs[id];
      match r.expiration
      case None => r' == r
      case Some(e) =>
        if e != 0.0 && t.checks[id] > e then
          && r'.retryCount == r.retryCount + 1
          && (r'.status == StatusCode.Running ==> r'.expiration == Some(t.grant + 30.0) && !r.cancelRequested)
        else
          r' == r
  {
    var kinds := ClaimWritesRecord(s, w, t, id, AfterClaim(s, w, t), Claimed(s, w, t) == Some(id));
    ClaimEffect(s, w, t, id, AfterClaim(s, w, t), Claimed(s, w, t) == Some(id));
  }
}
