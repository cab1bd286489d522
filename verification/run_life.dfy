/**
 * The life of one run: its record, its event stream and the times of its claims. Every property of
 * a single run is proved here for one change, and carried over whole executions elsewhere.
 */
module RunLife {
  import opened Wrappers
  import opened RunDomain
  import opened EventLog
  import opened RunStore

  /** One claim: when it was made and when its lease was last renewed. */
  datatype Grant = Grant(at: real, renewed: real)

  /** The claim times are a record of the past that the program itself does not keep. */
  datatype Life = Life(entry: Entry, grants: seq<Grant>)

  function Last(grants: seq<Grant>): Grant
    requires grants != []
  {
    grants[|grants| - 1]
  }

  function GrantsAfter(grants: seq<Grant>, c: Change): seq<Grant> {
    match c
    case Take(_, now) => grants + [Grant(now, now)]
    case Renew(_, now) =>
      if grants == [] then grants else grants[..|grants| - 1] + [Last(grants).(renewed := now)]
    case _ => grants
  }

  function LifeAfter(l: Life, c: Change): Life {
    Life(EntryAfter(l.entry, c), GrantsAfter(l.grants, c))
  }

  function LifeAfterAll(l: Life, cs: seq<Change>): Life
    decreases |cs|
  {
    if cs == [] then l else LifeAfterAll(LifeAfter(l, cs[0]), cs[1..])
  }

  predicate PermittedAll(r: Run, cs: seq<Change>)
    decreases |cs|
  {
    cs == [] || (Permitted(r, cs[0]) && PermittedAll(RunAfter(r, cs[0]), cs[1..]))
  }

  /** The clock reading a change is made at; changes without one can be made at any time. */
  function TimeOf(c: Change, otherwise: real): real {
    match c
    case Recover(_, now) => now
    case Take(_, now) => now
    case Renew(_, now) => now
    case _ => otherwise
  }

  /** The clock does not run backwards from one change to the next. */
  predicate Timed(cs: seq<Change>, from: real, to: real)
    decreases |cs|
  {
    && from <= to
    && (cs == [] ||
        var now := TimeOf(cs[0], from);
        from <= now && Timed(cs[1..], now, to))
  }

  // ----- replaying the log

  /** What the log alone says about a run. */
  datatype View = View(
    status: StatusCode,
    retries: nat,
    error: Option<Fault>,
    worker: Option<WorkerId>,
    cancelRequested: bool)

  function Replay(v: View, kind: EventKind): View {
    match kind
    case RunCreated(_) => View(StatusCode.Created, 0, None, None, false)
    case RunEnqueued => v.(status := StatusCode.Enqueued, retries := 0, worker := None, cancelRequested := false)
    case RunClaimed(w) => v.(status := StatusCode.Running, worker := Some(w))
    case ClaimExpired => v.(status := StatusCode.Enqueued, retries := v.retries + 1)
    case CancelAsked => v.(cancelRequested := true)
    case RunCancelled => v.(status := StatusCode.Cancelled)
    case RunSucceeded => v.(status := StatusCode.Succeeded)
    case RunFailed(fault) => v.(status := StatusCode.Failed, error := Some(fault))
    case ClaimLost(_) => v
    case ExecutorEvent(_) => v
  }

  function Fold(stream: Stream): View {
    if stream == [] then View(StatusCode.Created, 0, None, None, false)
    else Replay(Fold(stream[..|stream| - 1]), stream[|stream| - 1].kind)
  }

  /** A record says what a view of the log says, in every field the log determines. */
  predicate Matches(r: Run, v: View) {
    && r.status == v.status
    && r.error == v.error
    && r.retryCount == v.retries
    && r.cancelRequested == v.cancelRequested
    && (r.status == StatusCode.Running ==> r.claimedWorker == v.worker)
  }

  /** The same, except that the deprecated cancellation resets two fields of a cancelled run. */
  predicate MatchesOr(r: Run, v: View, strict: bool) {
    if strict || r.status != StatusCode.Cancelled then Matches(r, v)
    else r.status == v.status && r.error == v.error
  }

  predicate AgreesFully(e: Entry) {
    Matches(e.run, Fold(e.stream))
  }

  predicate Agrees(e: Entry, strict: bool) {
    MatchesOr(e.run, Fold(e.stream), strict)
  }

  lemma FoldAppended(id: RunId, stream: Stream, kind: EventKind)
    ensures Fold(Appended(id, stream, kind)) == Replay(Fold(stream), kind)
  {
    var longer := Appended(id, stream, kind);
    assert longer[..|longer| - 1] == stream;
  }

  /** The record and the view change together. */
  lemma ChangeMatchesReplay(r: Run, v: View, c: Change, strict: bool)
    requires MatchesOr(r, v, strict) && Visible(r.status) && Permitted(r, c)
    requires strict ==> !c.MarkCancel?
    ensures MatchesOr(RunAfter(r, c), if Emitted(c).None? then v else Replay(v, Emitted(c).value), strict)
  {
  }

  lemma ChangeKeepsAgreement(e: Entry, c: Change, strict: bool)
    requires Agrees(e, strict) && Visible(e.run.status) && Permitted(e.run, c)
    requires strict ==> !c.MarkCancel?
    ensures Agrees(EntryAfter(e, c), strict)
  {
    ChangeMatchesReplay(e.run, Fold(e.stream), c, strict);
    if Emitted(c).Some? {
      FoldAppended(e.run.id, e.stream, Emitted(c).value);
    }
  }

  lemma ResetMatchesIff(r: Run, v: View)
    requires Matches(r, v) && !Terminal(r.status)
    ensures
      Matches(BareRun(r.id, StatusCode.Cancelled, r.result, r.error), Replay(v, RunCancelled)) <==>
        r.retryCount == 0 && !r.cancelRequested
  {
  }

  /** The deprecated cancellation drops the retry count and the intent, which the log still holds. */
  lemma MarkCancelAgreesIff(e: Entry)
    requires AgreesFully(e) && Permitted(e.run, MarkCancel)
    ensures AgreesFully(EntryAfter(e, MarkCancel)) <==> e.run.retryCount == 0 && !e.run.cancelRequested
  {
    var e' := EntryAfter(e, MarkCancel);
    assert e'.run == BareRun(e.run.id, StatusCode.Cancelled, e.run.result, e.run.error);
    assert e'.stream == Appended(e.run.id, e.stream, RunCancelled);
    FoldAppended(e.run.id, e.stream, RunCancelled);
    ResetMatchesIff(e.run, Fold(e.stream));
  }

  // ----- status

  /** The statuses that can be seen between store calls. */
  predicate Visible(c: StatusCode) {
    c != TimedOut && c != Retrying
  }

  lemma ChangeFollowsRules(r: Run, c: Change)
    requires Visible(r.status) && Permitted(r, c)
    ensures Visible(RunAfter(r, c).status)
    ensures Connected(r.status, RunAfter(r, c).status)
  {
    var target := RunAfter(r, c).status;
    if c.Recover? {
      var path := [StatusCode.Running, TimedOut, Retrying, StatusCode.Enqueued];
      assert RulePath(path);
    } else if target == r.status {
      ConnectedRefl(r.status);
    } else {
      assert RulePath([r.status, target]);
    }
  }

  /** Nothing but executor events reaches a run that is over. */
  lemma TerminalAbsorbs(r: Run, c: Change)
    requires Terminal(r.status) && Permitted(r, c)
    ensures c.Note? && RunAfter(r, c) == r
  {
  }

  // ----- counting events

  function CountClaimed(stream: Stream): nat {
    if stream == [] then 0
    else CountClaimed(stream[..|stream| - 1]) + if stream[|stream| - 1].kind.RunClaimed? then 1 else 0
  }

  function CountExpired(stream: Stream): nat {
    if stream == [] then 0
    else CountExpired(stream[..|stream| - 1]) + if stream[|stream| - 1].kind.ClaimExpired? then 1 else 0
  }

  predicate Closing(kind: EventKind) {
    kind.RunSucceeded? || kind.RunFailed? || kind.RunCancelled?
  }

  function CountClosing(stream: Stream): nat {
    if stream == [] then 0
    else CountClosing(stream[..|stream| - 1]) + if Closing(stream[|stream| - 1].kind) then 1 else 0
  }

  lemma CountsAppended(id: RunId, stream: Stream, kind: EventKind)
    ensures CountClaimed(Appended(id, stream, kind)) == CountClaimed(stream) + if kind.RunClaimed? then 1 else 0
    ensures CountExpired(Appended(id, stream, kind)) == CountExpired(stream) + if kind.ClaimExpired? then 1 else 0
    ensures CountClosing(Appended(id, stream, kind)) == CountClosing(stream) + if Closing(kind) then 1 else 0
  {
    var longer := Appended(id, stream, kind);
    assert longer[..|longer| - 1] == stream;
  }

  /** Attempts are conserved: the counters of the record and the events of the log match. */
  predicate Conserved(e: Entry, strict: bool) {
    var expired, claimed := CountExpired(e.stream), CountClaimed(e.stream);
    && (strict || e.run.status != StatusCode.Cancelled ==> e.run.retryCount == expired)
    && CountClosing(e.stream) == (if Terminal(e.run.status) then 1 else 0)
    && match e.run.status
       case Created => expired == 0 && claimed == 0
       case Enqueued => claimed == expired
       case Running => claimed == expired + 1
       case Succeeded => claimed == expired + 1
       case Failed => claimed == expired + 1
       case Cancelled => claimed == expired || claimed == expired + 1
       case TimedOut => false
       case Retrying => false
  }

  lemma ChangeConserves(e: Entry, c: Change, strict: bool)
    requires Conserved(e, strict) && Permitted(e.run, c)
    requires strict ==> !c.MarkCancel?
    ensures Conserved(EntryAfter(e, c), strict)
  {
    var event := Emitted(c);
    if event.Some? {
      CountsAppended(e.run.id, e.stream, event.value);
    }
  }

  // ----- intent

  ghost predicate Asked(stream: Stream) {
    exists i :: 0 <= i < |stream| && stream[i].kind == CancelAsked
  }

  /** A cancellation event that comes after a request for it. */
  ghost predicate AskedThenCancelled(stream: Stream) {
    exists i, j :: 0 <= i < j < |stream| && stream[i].kind == CancelAsked && stream[j].kind == RunCancelled
  }

  ghost predicate IntentLogged(e: Entry) {
    && (e.run.cancelRequested ==> Asked(e.stream))
    && (e.run.cancelRequested && e.run.status == StatusCode.Cancelled ==> AskedThenCancelled(e.stream))
  }

  lemma ChangeKeepsIntentLogged(e: Entry, c: Change)
    requires IntentLogged(e) && Permitted(e.run, c)
    ensures IntentLogged(EntryAfter(e, c))
  {
    var e' := EntryAfter(e, c);
    assert forall i | 0 <= i < |e.stream| :: e'.stream[i] == e.stream[i];
    if e.run.cancelRequested {
      var i :| 0 <= i < |e.stream| && e.stream[i].kind == CancelAsked;
      assert e'.stream[i].kind == CancelAsked;
      if e.run.status == StatusCode.Cancelled {
        var a, b :| 0 <= a < b < |e.stream| && e.stream[a].kind == CancelAsked && e.stream[b].kind == RunCancelled;
        assert e'.stream[a].kind == CancelAsked && e'.stream[b].kind == RunCancelled;
      } else if c.Cancel? {
        assert e'.stream[|e.stream|].kind == RunCancelled;
      }
    } else if c.AskCancel? {
      assert e'.stream[|e.stream|].kind == CancelAsked;
    }
  }

  /** The run can never be handed out again: it is over, or waits or runs with cancel intent. */
  predicate Doomed(r: Run) {
    || Terminal(r.status)
    || (r.cancelRequested && (r.status == StatusCode.Enqueued || r.status == StatusCode.Running))
  }

  lemma DoomedStays(r: Run, c: Change)
    requires Doomed(r) && Permitted(r, c)
    ensures Doomed(RunAfter(r, c)) && !c.Take?
    ensures RunAfter(r, c).cancelRequested == r.cancelRequested || Terminal(RunAfter(r, c).status)
  {
  }

  // ----- leases

  /** Claims lie more than a lease apart, counted from the last renewal. */
  ghost predicate Spaced(grants: seq<Grant>, clock: real) {
    && (forall i | 0 <= i < |grants| :: 0.0 <= grants[i].at <= grants[i].renewed <= clock)
    && (forall i | 0 < i < |grants| :: grants[i].at > NewExpiration(grants[i - 1].renewed))
  }

  ghost predicate Leased(l: Life, clock: real) {
    var r := l.entry.run;
    && 0.0 <= clock
    && Spaced(l.grants, clock)
    && r.retryCount <= |l.grants|
    && (r.retryCount == |l.grants| && l.grants != [] ==> clock > NewExpiration(Last(l.grants).renewed))
    && (r.status == StatusCode.Created ==> l.grants == [])
    && (r.status == StatusCode.Enqueued ==> |l.grants| == r.retryCount)
    && (r.status == StatusCode.Running ==>
          && |l.grants| == r.retryCount + 1
          && r.claimedWorker.Some?
          && r.expiration == Some(NewExpiration(Last(l.grants).renewed)))
  }

  lemma ChangeKeepsLeased(l: Life, c: Change, clock: real, later: real)
    requires Leased(l, clock) && Visible(l.entry.run.status) && Permitted(l.entry.run, c)
    requires clock <= TimeOf(c, clock) <= later
    ensures Leased(LifeAfter(l, c), TimeOf(c, clock))
  {
    var l' := LifeAfter(l, c);
    var now := TimeOf(c, clock);
    forall i | 0 < i < |l'.grants|
      ensures l'.grants[i].at > NewExpiration(l'.grants[i - 1].renewed)
    {
      if i < |l.grants| {
        assert l.grants[i].at > NewExpiration(l.grants[i - 1].renewed);
        assert l'.grants[i - 1] == l.grants[i - 1];
      }
    }
  }

  lemma LeasedLater(l: Life, clock: real, later: real)
    requires Leased(l, clock) && clock <= later
    ensures Leased(l, later)
  {
  }

  /** k claims span more than k - 1 leases. */
  lemma {:induction false} LeasesAddUp(grants: seq<Grant>, clock: real, k: nat)
    requires Spaced(grants, clock) && k < |grants|
    ensures grants[k].at >= grants[0].at + LEASE_SECONDS * (k as real)
    ensures k > 0 ==> grants[k].at > grants[0].at + LEASE_SECONDS * (k as real)
  {
    if k > 0 {
      LeasesAddUp(grants, clock, k - 1);
      assert grants[k].at > NewExpiration(grants[k - 1].renewed) >= grants[k - 1].at + LEASE_SECONDS;
      assert LEASE_SECONDS * (k as real) == LEASE_SECONDS * ((k - 1) as real) + LEASE_SECONDS;
    }
  }

  /** The time since the first claim exceeds one lease per retry. */
  lemma RetriesTakeLeases(l: Life, clock: real)
    requires Leased(l, clock) && l.entry.run.retryCount > 0
    ensures l.grants != []
    ensures LEASE_SECONDS * (l.entry.run.retryCount as real) < clock - l.grants[0].at
  {
    var n, k := |l.grants|, l.entry.run.retryCount;
    if k == n {
      LeasesAddUp(l.grants, clock, n - 1);
      assert LEASE_SECONDS * (n as real) == LEASE_SECONDS * ((n - 1) as real) + LEASE_SECONDS;
    } else {
      LeasesAddUp(l.grants, clock, k);
    }
  }

  // ----- everything together

  ghost predicate Sound(l: Life, clock: real, strict: bool) {
    && Visible(l.entry.run.status)
    && Agrees(l.entry, strict)
    && Conserved(l.entry, strict)
    && IntentLogged(l.entry)
    && Leased(l, clock)
    && Numbered(l.entry.run.id, l.entry.stream)
  }

  lemma ChangeKeepsSound(l: Life, c: Change, clock: real, later: real, strict: bool)
    requires Sound(l, clock, strict) && Permitted(l.entry.run, c)
    requires clock <= TimeOf(c, clock) <= later
    requires strict ==> !c.MarkCancel?
    ensures Sound(LifeAfter(l, c), TimeOf(c, clock), strict)
  {
    ChangeFollowsRules(l.entry.run, c);
    ChangeKeepsAgreement(l.entry, c, strict);
    ChangeConserves(l.entry, c, strict);
    ChangeKeepsIntentLogged(l.entry, c);
    ChangeKeepsLeased(l, c, clock, later);
    EntryAfterNumbered(l.entry, c);
  }

  lemma {:induction false} ChangesKeepSound(l: Life, cs: seq<Change>, clock: real, later: real, strict: bool)
    requires Sound(l, clock, strict) && PermittedAll(l.entry.run, cs) && Timed(cs, clock, later)
    requires strict ==> forall c | c in cs :: !c.MarkCancel?
    ensures Sound(LifeAfterAll(l, cs), later, strict)
    decreases |cs|
  {
    if cs == [] {
      LeasedLater(l, clock, later);
    } else {
      var now := TimeOf(cs[0], clock);
      assert Timed(cs[1..], now, later);
      assert cs[0] in cs;
      ChangeKeepsSound(l, cs[0], clock, later, strict);
      ChangesKeepSound(LifeAfter(l, cs[0]), cs[1..], now, later, strict);
    }
  }

  /** A run starts sound. */
  lemma CreatedIsSound(id: RunId, user: string, clock: real, strict: bool)
    requires 0.0 <= clock
    ensures Sound(Life(Entry(BareRun(id, StatusCode.Created, None, None),
                             Appended(id, [], RunCreated(user))), []), clock, strict)
  {
    FoldAppended(id, [], RunCreated(user));
    CountsAppended(id, [], RunCreated(user));
  }
}
