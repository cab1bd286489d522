/** What one `claim_run` guarantees: completeness of its two loops and first-in-first-out order. */
module ClaimFacts {
  import opened Wrappers
  import opened RunDomain
  import opened RunStore

  /** A run as the check of its lease leaves it. */
  function Checked(r: Run, w: WorkerId, now: real): Run {
    if Lapsed(r, now) then
      r.(status := StatusCode.Enqueued, claimedWorker := Some(w), retryCount := r.retryCount + 1)
    else r
  }

  /** The run as the first loop leaves it. */
  function SweptAt(s: Store, w: WorkerId, t: Readings, id: RunId): Run
    requires s.runs.Keys <= t.checks.Keys && id in s.runs
  {
    Checked(s.runs[id], w, t.checks[id])
  }

  lemma AfterSweepAt(s: Store, w: WorkerId, t: Readings, id: RunId)
    requires s.runs.Keys == s.log.Keys && s.runs.Keys <= t.checks.Keys && id in s.runs
    ensures AfterSweep(s, w, t).order == s.order && id in AfterSweep(s, w, t).runs
    ensures AfterSweep(s, w, t).runs[id] == SweptAt(s, w, t, id)
  {
    ApplyEachAt(s, SweepChanges(s.runs, w, t.checks), id);
  }

  function Dispatched(r: Run, c: Option<Change>): Run {
    if c.None? then r else RunAfter(r, c.value)
  }

  lemma AfterClaimAt(s: Store, w: WorkerId, t: Readings, id: RunId, s': Store)
    requires s.runs.Keys == s.log.Keys && s.runs.Keys <= t.checks.Keys && id in s.runs
    requires forall i | 0 <= i < |s.order| :: s.order[i] in s.runs
    requires s' == AfterClaim(s, w, t)
    ensures id in s'.runs
    ensures s'.runs[id] == Dispatched(SweptAt(s, w, t, id), SecondChange(s, w, t, id))
  {
    var mid := AfterSweep(s, w, t);
    AfterSweepAt(s, w, t, id);
    ApplyEachAt(mid, DispatchChanges(mid.order, mid.runs, w, t.grant), id);
  }

  /** Where the handed-out run stands, or the length of the order if nothing is handed out. */
  ghost function Handout(s: Store, w: WorkerId, t: Readings): (k: nat)
    requires s.runs.Keys == s.log.Keys && s.runs.Keys <= t.checks.Keys
    requires forall i | 0 <= i < |s.order| :: s.order[i] in s.runs
    ensures k <= |s.order|
    ensures Claimed(s, w, t) == if k < |s.order| then Some(s.order[k]) else None
  {
    FirstClaimable(s.order, AfterSweep(s, w, t).runs)
  }

  /**
   * What becomes of the run at position i when the one at position k is handed out: what lies
   * before is not left enqueued, what lies after is only recovered. With k beyond the table,
   * nothing at all is left enqueued.
   */
  predicate Treated(i: nat, k: nat, swept: Run, r: Run, w: WorkerId, grant: real) {
    if i < k then
      if swept.status == StatusCode.Enqueued then
        swept.cancelRequested && r == swept.(status := StatusCode.Cancelled)
      else r == swept
    else if i == k then
      && swept.status == StatusCode.Enqueued && !swept.cancelRequested
      && r == swept.(status := StatusCode.Running, claimedWorker := Some(w), expiration := Some(grant + LEASE_SECONDS))
    else r == swept
  }

  /** The whole effect of `claim_run` on the table. */
  lemma ClaimIsComplete(s: Store, w: WorkerId, t: Readings, i: nat, k: nat, s': Store)
    requires Valid(s) && s.runs.Keys <= t.checks.Keys && i < |s.order|
    requires k == Handout(s, w, t) && s' == AfterClaim(s, w, t)
    ensures s.order[i] in s'.runs
    ensures Treated(i, k, Checked(s.runs[s.order[i]], w, t.checks[s.order[i]]), s'.runs[s.order[i]], w, t.grant)
  {
    SecondChangeAt(s, w, t, i);
    ClaimTreats(s, w, t, i, s.order[i], k, SecondChange(s, w, t, s.order[i]), s');
  }

  lemma SecondChangeAt(s: Store, w: WorkerId, t: Readings, i: nat)
    requires Valid(s) && s.runs.Keys <= t.checks.Keys && i < |s.order|
    ensures s.order[i] in AfterSweep(s, w, t).runs
    ensures
      var k, c := Handout(s, w, t), SecondChange(s, w, t, s.order[i]);
      var r := AfterSweep(s, w, t).runs[s.order[i]];
      && (i < k ==> !Claimable(r) && c == if r.status.Enqueued? then Some(Cancel) else None)
      && (i == k ==> Claimable(r) && c == Some(Take(w, t.grant)))
      && (i > k ==> c == None)
  {
    DispatchChangeAt(s.order, AfterSweep(s, w, t).runs, w, t.grant, i);
  }

  lemma ClaimTreats(s: Store, w: WorkerId, t: Readings, i: nat, id: RunId, k: nat, c: Option<Change>, s': Store)
    requires s.runs.Keys == s.log.Keys && s.runs.Keys <= t.checks.Keys && id in s.runs
    requires forall j | 0 <= j < |s.order| :: s.order[j] in s.runs
    requires s' == AfterClaim(s, w, t) && c == SecondChange(s, w, t, id)
    requires
      var r := AfterSweep(s, w, t).runs[id];
      && (i < k ==> !Claimable(r) && c == if r.status.Enqueued? then Some(Cancel) else None)
      && (i == k ==> Claimable(r) && c == Some(Take(w, t.grant)))
      && (i > k ==> c == None)
    ensures id in s'.runs && Treated(i, k, SweptAt(s, w, t, id), s'.runs[id], w, t.grant)
  {
    AfterSweepAt(s, w, t, id);
    AfterClaimAt(s, w, t, id, s');
    TreatedBy(i, k, SweptAt(s, w, t, id), c, s'.runs[id], w, t.grant);
  }

  lemma TreatedBy(i: nat, k: nat, swept: Run, c: Option<Change>, r: Run, w: WorkerId, grant: real)
    requires r == Dispatched(swept, c)
    requires i < k ==> !Claimable(swept) && c == if swept.status == StatusCode.Enqueued then Some(Cancel) else None
    requires i == k ==> Claimable(swept) && c == Some(Take(w, grant))
    requires i > k ==> c == None
    ensures Treated(i, k, swept, r, w, grant)
  {
  }

  /** No run whose lease was over when it was checked keeps that lease. */
  lemma LapsedAreRecovered(s: Store, w: WorkerId, t: Readings, id: RunId)
    requires Valid(s) && s.runs.Keys <= t.checks.Keys && id in s.runs && Lapsed(s.runs[id], t.checks[id])
    ensures id in AfterClaim(s, w, t).runs
    ensures
      var r := AfterClaim(s, w, t).runs[id];
      && r.retryCount == s.runs[id].retryCount + 1
      && (r.status == StatusCode.Running ==> r.expiration == Some(t.grant + LEASE_SECONDS))
      && r.status in {StatusCode.Running, StatusCode.Enqueued, StatusCode.Cancelled}
      && (s.runs[id].cancelRequested ==> r.status != StatusCode.Running)
  {
    assert id in s.order;
    var i :| 0 <= i < |s.order| && s.order[i] == id;
    ClaimIsComplete(s, w, t, i, Handout(s, w, t), AfterClaim(s, w, t));
  }

  /** Nothing is handed out while an earlier run waits without cancel intent, even a just-recovered one. */
  lemma ClaimIsFifo(s: Store, w: WorkerId, t: Readings, i: nat, k: nat)
    requires Valid(s) && s.runs.Keys <= t.checks.Keys && i < |s.order|
    requires Claimed(s, w, t).None? || (i < k < |s.order| && Claimed(s, w, t) == Some(s.order[k]))
    ensures !Claimable(SweptAt(s, w, t, s.order[i]))
    ensures s.order[i] in AfterClaim(s, w, t).runs
    ensures AfterClaim(s, w, t).runs[s.order[i]].status != StatusCode.Enqueued
  {
    ClaimIsComplete(s, w, t, i, Handout(s, w, t), AfterClaim(s, w, t));
  }

  /** A run is handed out only if it waits, or its lease is over, and never against its intent. */
  lemma HandoutNeedsWaiting(s: Store, w: WorkerId, t: Readings, id: RunId)
    requires Valid(s) && s.runs.Keys <= t.checks.Keys && Claimed(s, w, t) == Some(id)
    ensures id in s.runs && !s.runs[id].cancelRequested
    ensures s.runs[id].status == StatusCode.Enqueued || Lapsed(s.runs[id], t.checks[id])
    ensures id in AfterClaim(s, w, t).runs
    ensures AfterClaim(s, w, t).runs[id].status == StatusCode.Running
    ensures AfterClaim(s, w, t).runs[id].claimedWorker == Some(w)
    ensures AfterClaim(s, w, t).runs[id].expiration == Some(t.grant + LEASE_SECONDS)
  {
    ClaimIsComplete(s, w, t, Handout(s, w, t), Handout(s, w, t), AfterClaim(s, w, t));
  }

  /** Exactly which run is handed out: the first in creation order that waits or has lapsed, without intent. */
  lemma HandoutIff(s: Store, w: WorkerId, t: Readings, i: nat)
    requires Valid(s) && s.runs.Keys <= t.checks.Keys && i < |s.order|
    ensures Claimed(s, w, t) == Some(s.order[i]) <==>
      && Claimable(SweptAt(s, w, t, s.order[i]))
      && forall j | 0 <= j < i :: !Claimable(SweptAt(s, w, t, s.order[j]))
  {
    var k := Handout(s, w, t);
    forall j | 0 <= j < |s.order|
      ensures AfterSweep(s, w, t).runs[s.order[j]] == SweptAt(s, w, t, s.order[j])
    {
      AfterSweepAt(s, w, t, s.order[j]);
    }
    assert Claimed(s, w, t) == Some(s.order[i]) <==> i == k;
  }

  // ----- the effect on one run, without its position

  /** `taken` tells whether the run is the one handed out. */
  predicate Effect(r: Run, r': Run, w: WorkerId, now: real, grant: real, taken: bool) {
    var swept := Checked(r, w, now);
    if taken then
      && Claimable(swept)
      && r' == swept.(status := StatusCode.Running, claimedWorker := Some(w), expiration := Some(grant + LEASE_SECONDS))
    else
      || r' == swept
      || (swept.status == StatusCode.Enqueued && swept.cancelRequested && r' == swept.(status := StatusCode.Cancelled))
  }

  lemma TreatedEffect(i: nat, k: nat, r: Run, r': Run, w: WorkerId, now: real, grant: real)
    requires Treated(i, k, Checked(r, w, now), r', w, grant)
    ensures Effect(r, r', w, now, grant, i == k)
  {
  }

  lemma ClaimEffect(s: Store, w: WorkerId, t: Readings, id: RunId, s': Store, taken: bool)
    requires Valid(s) && s.runs.Keys <= t.checks.Keys && id in s.runs
    requires s' == AfterClaim(s, w, t) && taken == (Claimed(s, w, t) == Some(id))
    ensures id in s'.runs && Effect(s.runs[id], s'.runs[id], w, t.checks[id], t.grant, taken)
  {
    assert id in s.order;
    var i :| 0 <= i < |s.order| && s.order[i] == id;
    var k := Handout(s, w, t);
    assert taken == (i == k);
    ClaimIsComplete(s, w, t, i, k, s');
    TreatedEffect(i, k, s.runs[id], s'.runs[id], w, t.checks[id], t.grant);
  }
}
