/** The whole system: the API, any number of workers, the shared store and one clock. */
module Cluster {
  import opened Wrappers
  import opened RunDomain
  import opened RunStore
  import opened RunLife
  import opened WorkerMachine

  datatype System = System(
    store: Store,
    clock: real,
    workers: map<WorkerId, Worker>,
    grants: map<RunId, seq<Grant>>)

  datatype Action =
    | CreateRun(id: RunId, user: string)
    | EnqueueRun(id: RunId)
    | RequestCancel(id: RunId)
    | DeprecatedCancel(id: RunId)
    | Tick(now: real)
    | Work(w: WorkerId, act: Act)

  ghost predicate Wellformed(s: System) {
    && RunStore.Valid(s.store)
    && s.grants.Keys == s.store.runs.Keys
  }

  ghost predicate Initial(s: System) {
    && s.store == Store([], map[], map[])
    && 0.0 <= s.clock
    && (forall w | w in s.workers :: s.workers[w] == FRESH)
    && s.grants == map[]
  }

  /** What can happen next. `uuid4` draws fresh ids and the clock does not run backwards. */
  ghost predicate Enabled(s: System, a: Action) {
    && Wellformed(s)
    && match a
       case CreateRun(id, _) => id !in s.store.runs
       case Tick(now) => s.clock <= now
       case Work(w, act) => w in s.workers && Possible(s.store, s.clock, s.workers[w], act)
       case _ => true
  }

  function ClockAfter(s: System, a: Action): real {
    match a
    case Tick(now) => now
    case Work(_, Claim(t)) => t.grant
    case Work(_, Beat(now)) => now
    case _ => s.clock
  }

  function AsSeq<T>(o: Option<T>): seq<T> {
    if o.Some? then [o.value] else []
  }

  /** The one change to one run that a step consists of, if any; claims are treated apart. */
  datatype Touch = Untouched | Touch(id: RunId, change: Change)

  function ChangesFrom(touch: Touch, id: RunId): seq<Change> {
    if touch.Touch? && touch.id == id then [touch.change] else []
  }

  function TouchIf(s: Store, id: RunId, c: Change): Touch {
    if id in s.runs && Permitted(s.runs[id], c) then Touch(id, c) else Untouched
  }

  function WorkTouch(s: Store, w: WorkerId, wk: Worker, act: Act): Touch
    requires act.Emit? ==> wk.phase.Executing?
    requires act.Finalize? ==> InFinalization(wk.phase)
    requires act.Beat? ==> Scope(wk.phase).Some?
  {
    match act
    case Emit(name) => TouchIf(s, wk.phase.id, Note(name))
    case Finalize => (
      match wk.phase
      case Returned(id) => if wk.ctx == Some(true) then TouchIf(s, id, Cancel) else Untouched
      case Cancelling(id) => TouchIf(s, id, Cancel)
      case Succeeding(id) => TouchIf(s, id, Succeed(DONE))
      case Failing(id, fault) => TouchIf(s, id, Fail(fault))
      case _ => Untouched)
    case Beat(now) =>
      var id := Scope(wk.phase).value;
      var renewal := TouchIf(s, id, Renew(w, now));
      if renewal.Touch? then renewal else TouchIf(s, id, NoteLost(w))
    case _ => Untouched
  }

  function TouchOf(s: System, a: Action): Touch
    requires Enabled(s, a)
  {
    match a
    case EnqueueRun(id) => TouchIf(s.store, id, Enqueue)
    case RequestCancel(id) => TouchIf(s.store, id, AskCancel)
    case DeprecatedCancel(id) => TouchIf(s.store, id, MarkCancel)
    case Work(w, act) => WorkTouch(s.store, w, s.workers[w], act)
    case _ => Untouched
  }

  /** What a step does to one existing run. */
  function ChangesOf(s: System, a: Action, id: RunId): seq<Change>
    requires Enabled(s, a) && id in s.store.runs
  {
    if a.Work? && a.act.Claim? then
      var t := a.act.t;
      AsSeq(FirstChange(s.store, a.w, t, id)) + AsSeq(SecondChange(s.store, a.w, t, id))
    else
      ChangesFrom(TouchOf(s, a), id)
  }

  // ----- the step

  function ApplyTouch(s: Store, touch: Touch): Store
    requires s.runs.Keys == s.log.Keys && (touch.Touch? ==> touch.id in s.runs)
  {
    if touch.Touch? then Apply(s, touch.id, touch.change) else s
  }

  lemma GuardedTouches(s: Store, id: RunId, target: StatusCode, c: Change)
    requires s.runs.Keys == s.log.Keys
    requires id in s.runs ==> (Permitted(s.runs[id], c) <==> Allowed(s.runs[id].status, target))
    ensures Guarded(s, id, target, c).store == ApplyTouch(s, TouchIf(s, id, c))
  {
  }

  lemma FinalizeTouches(s: Store, w: WorkerId, wk: Worker)
    requires s.runs.Keys == s.log.Keys && InFinalization(wk.phase)
    ensures FinalizeStep(s, wk).0 == ApplyTouch(s, WorkTouch(s, w, wk, Finalize))
  {
    var id := wk.phase.id;
    GuardedTouches(s, id, StatusCode.Cancelled, Cancel);
    GuardedTouches(s, id, StatusCode.Succeeded, Succeed(DONE));
    if wk.phase.Failing? {
      GuardedTouches(s, id, StatusCode.Failed, Fail(wk.phase.fault));
    }
  }

  lemma BeatTouches(s: Store, w: WorkerId, wk: Worker, now: real)
    requires s.runs.Keys == s.log.Keys && Scope(wk.phase).Some?
    ensures BeatStep(s, w, wk, now).0 == ApplyTouch(s, WorkTouch(s, w, wk, Beat(now)))
  {
  }

  lemma WorkTouches(s: Store, clock: real, w: WorkerId, wk: Worker, act: Act)
    requires RunStore.Valid(s) && Possible(s, clock, wk, act) && !act.Claim?
    ensures WorkerStep(s, clock, w, wk, act).0 == ApplyTouch(s, WorkTouch(s, w, wk, act))
  {
    match act
    case Finalize => FinalizeTouches(s, w, wk);
    case Beat(now) => BeatTouches(s, w, wk, now);
    case _ =>
  }

  predicate IsClaim(a: Action) {
    a.Work? && a.act.Claim?
  }

  function StoreAfter(s: System, a: Action): Store
    requires Enabled(s, a)
  {
    match a
    case CreateRun(id, user) => RunStore.CreateRun(s.store, id, user)
    case EnqueueRun(id) => MarkEnqueued(s.store, id).store
    case RequestCancel(id) => RequestCancellation(s.store, id).store
    case DeprecatedCancel(id) => MarkCancelled(s.store, id).store
    case Tick(_) => s.store
    case Work(w, act) => WorkerStep(s.store, s.clock, w, s.workers[w], act).0
  }

  function WorkersAfter(s: System, a: Action): map<WorkerId, Worker>
    requires Enabled(s, a)
  {
    if a.Work? then s.workers[a.w := WorkerStep(s.store, s.clock, a.w, s.workers[a.w], a.act).1]
    else s.workers
  }

  /** Every step but a creation or a claim makes at most one permitted change to one run. */
  lemma StepTouches(s: System, a: Action)
    requires Enabled(s, a) && !a.CreateRun? && !IsClaim(a)
    ensures TouchOf(s, a).Touch? ==> TouchOf(s, a).id in s.store.runs
    ensures StoreAfter(s, a) == ApplyTouch(s.store, TouchOf(s, a))
  {
    if a.Work? {
      WorkTouches(s.store, s.clock, a.w, s.workers[a.w], a.act);
    }
  }

  lemma StoreAfterValid(s: System, a: Action)
    requires Enabled(s, a)
    ensures RunStore.Valid(StoreAfter(s, a))
    ensures StoreAfter(s, a).order == if a.CreateRun? then s.store.order + [a.id] else s.store.order
    ensures StoreAfter(s, a).runs.Keys == if a.CreateRun? then s.store.runs.Keys + {a.id} else s.store.runs.Keys
  {
    if a.CreateRun? {
      CreateKeepsValid(s.store, a.id, a.user);
    } else if IsClaim(a) {
      ClaimKeepsValid(s.store, a.w, a.act.t);
    } else {
      StepTouches(s, a);
      var touch := TouchOf(s, a);
      if touch.Touch? {
        ApplyKeepsValid(s.store, touch.id, touch.change);
      }
    }
  }

  function GrantsAfterAll(grants: seq<Grant>, cs: seq<Change>): seq<Grant>
    decreases |cs|
  {
    if cs == [] then grants else GrantsAfterAll(GrantsAfter(grants, cs[0]), cs[1..])
  }

  function GrantsNext(s: System, a: Action): map<RunId, seq<Grant>>
    requires Enabled(s, a)
  {
    var grants := map id | id in s.grants :: GrantsAfterAll(s.grants[id], ChangesOf(s, a, id));
    if a.CreateRun? then grants[a.id := []] else grants
  }

  function Next(s: System, a: Action): (s': System)
    requires Enabled(s, a)
    ensures s.store.runs.Keys <= s'.store.runs.Keys
    ensures s'.store.runs.Keys == s'.store.log.Keys == s'.grants.Keys
    ensures s'.workers.Keys == s.workers.Keys
    ensures s.clock <= s'.clock
  {
    StoreAfterValid(s, a);
    System(StoreAfter(s, a), ClockAfter(s, a), WorkersAfter(s, a), GrantsNext(s, a))
  }

  // ----- executions

  ghost predicate Executes(s: System, actions: seq<Action>)
    decreases |actions|
  {
    actions == [] || (Enabled(s, actions[0]) && Executes(Next(s, actions[0]), actions[1..]))
  }

  ghost function After(s: System, actions: seq<Action>): System
    requires Executes(s, actions)
    decreases |actions|
  {
    if actions == [] then s else After(Next(s, actions[0]), actions[1..])
  }

  ghost predicate WithoutDeprecated(actions: seq<Action>) {
    forall a | a in actions :: !a.DeprecatedCancel?
  }

  // ----- every step is made of permitted changes

  ghost function LifeOf(s: System, id: RunId): Life
    requires Wellformed(s) && id in s.store.runs
  {
    Life(EntryOf(s.store, id), s.grants[id])
  }

  lemma {:induction false} LifeAfterAllParts(l: Life, cs: seq<Change>)
    ensures LifeAfterAll(l, cs).grants == GrantsAfterAll(l.grants, cs)
    decreases |cs|
  {
    if cs != [] {
      LifeAfterAllParts(LifeAfter(l, cs[0]), cs[1..]);
    }
  }
}
