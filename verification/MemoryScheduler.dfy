/**
 The in-memory scheduler: waiting lines, permits and request identities taken
 together.  What runs between two awaits is one function of the state before.
 One clock stands for the monotonic and the wall clock.
 */
module MemoryScheduler {
  import opened Ledger
  import opened Permits
  import opened WaitQueue

  datatype Known = Known(request: Request, owner: OwnerId, expires: Time)

  /** `dirty` are the pools that a former process may have left computing; they are ready once that is ruled out. */
  datatype Desk = Desk(lines: Lines, slots: Slots, known: map<Id, Known>, ready: map<PoolId, Time>, dirty: set<PoolId>,
                       controlReady: bool, endpointLimit: nat, tenantLimit: nat, ttl: nat)

  /** A value, or one of the two exceptions. */
  datatype Reply<T> = Value(value: T) | Clash | Denial(retryable: bool)

  datatype Code = ModelNotReady | DispatchCutoff | InferenceCapacity

  datatype Try = Given(attempt: AttemptId) | Refused(code: Code)

  /** `_validate`. */
  predicate Fits(n: Need, o: Offer) {
    && n.kind == o.kind && n.model == o.model && (n.revision.None? || n.revision.value == o.revision)
    && n.profile == o.profile && n.bound <= o.limit && n.batch <= o.maxBatch
  }

  predicate Of(s: Slots, a: AttemptId, id: Id) {
    a in s.record && s.record[a].request.Some? && s.record[a].request.value.id == id
  }

  /** The attempt of highest generation of a request; the first entered wins a tie. */
  function Latest(s: Slots, ids: seq<AttemptId>, id: Id): Option<AttemptId> {
    if ids == [] then None else
      var rest := Latest(s, ids[..|ids| - 1], id);
      var a := ids[|ids| - 1];
      if !Of(s, a, id) then rest
      else if rest.Some? && rest.value in s.record
              && s.record[a].generation <= s.record[rest.value].generation then rest
      else Some(a)
  }

  predicate Full(d: Desk, req: Request, p: PoolId) {
    Count(d.lines.queued, p) >= d.endpointLimit || Count(d.lines.byTenant, (p, req.tenant)) >= d.tenantLimit
  }

  function WaiterOf(req: Request, p: PoolId, owner: OwnerId, now: Time): Waiter {
    Waiter(req.tenant, p, owner, req.workload, req.deadline, now, true)
  }

  /** `_enqueue`. */
  function Enqueue(d: Desk, req: Request, p: PoolId, owner: OwnerId, now: Time): (Desk, Reply<Time>) {
    if p !in d.slots.pools then (d, Denial(true))
    else if req.id in d.known && (d.known[req.id].request != req || d.known[req.id].owner != owner) then (d, Clash)
    else if req.id in d.known && req.id in d.lines.waiters then (d, Value(d.lines.waiters[req.id].queuedAt))
    else
      var latest := if req.id in d.known then Latest(d.slots, d.slots.direct, req.id) else None;
      if latest.Some? && latest.value in d.slots.record
         && !Retryable(d.slots.record[latest.value].state) then (d, Clash)
      else if req.deadline <= now || Full(d, req, p) then (d, Denial(true))
      else if !Fits(req.need, d.slots.pools[p].offer) then (d, Denial(false))
      else
        (d.(lines := Join(d.lines, req.id, WaiterOf(req, p, owner, now)),
            known := d.known[req.id := Known(req, owner, now + d.ttl)]), Value(now))
  }

  predicate Open(d: Desk, p: PoolId, now: Time) {
    d.controlReady && p in d.ready && d.ready[p] <= now
  }

  /** The generation of a new attempt, or why there may be none yet. */
  function NextGeneration(s: Slots, req: Request, p: PoolId, owner: OwnerId, previous: Option<AttemptId>)
    : Reply<Option<nat>>
    requires p in s.pools
  {
    if previous.None? then
      if req.expectedEpoch.Some? && req.expectedEpoch.value != s.pools[p].epoch then Clash else Value(Some(0))
    else if previous.value !in s.direct || previous.value !in s.record then Clash
    else
      var t := s.record[previous.value];
      if t.request != Some(req) || t.owner != owner || t.pool != p || !Retryable(t.state) then Clash
      else if t.generation + 1 > 2 then Denial(false)
      else if t.state == PFailedRecoverable && t.epoch == s.pools[p].epoch && !t.idleVerified then Value(None)
      else Value(Some(t.generation + 1))
  }

  function NewPermit(s: Slots, req: Request, p: PoolId, owner: OwnerId, generation: nat): Permit
    requires p in s.pools
  {
    Permit(Some(req), p, owner, req.workload, s.pools[p].epoch, true, generation, PReserved, None, false)
  }

  /** The end of `_reserve`: the head of the line gets a permit if capacity allows. */
  function GrantHead(d: Desk, req: Request, p: PoolId, owner: OwnerId, generation: nat, id: AttemptId, now: Time)
    : (Desk, Reply<Option<AttemptId>>)
    requires p in d.slots.pools
  {
    var (lines, first) := First(d.lines, p, now);
    if first != Some(req.id) || !TryAcquire(d.slots, p, req.workload) then (d.(lines := lines), Value(None))
    else
      (d.(lines := Leave(lines, req.id),
          slots := Step(d.slots, Grant(id, NewPermit(d.slots, req, p, owner, generation)))), Value(Some(id)))
  }

  /** `_reserve`; `id` is the fresh identity a grant would use. */
  function Reserve(d: Desk, req: Request, p: PoolId, owner: OwnerId, previous: Option<AttemptId>, id: AttemptId,
                   now: Time)
    : (Desk, Reply<Option<AttemptId>>)
  {
    if p !in d.slots.pools then (d, Denial(true))
    else if req.id !in d.lines.waiters || d.lines.waiters[req.id].owner != owner then (d, Value(None))
    else if req.deadline <= now || !Open(d, p, now) then (d, Value(None))
    else if !Fits(req.need, d.slots.pools[p].offer) then (d, Denial(false))
    else match NextGeneration(d.slots, req, p, owner, previous)
      case Clash => (d, Clash)
      case Denial(retryable) => (d, Denial(retryable))
      case Value(None) => (d, Value(None))
      case Value(Some(generation)) => GrantHead(d, req, p, owner, generation, id, now)
  }

  /** What `try_reserve` undoes when it does not grant. */
  function Undone(d: Desk, p: PoolId, id: Id): Desk {
    d.(lines := Erase(d.lines, p, id), known := d.known - {id})
  }

  /** The body of `try_reserve`: queue, and reserve at once. */
  function QueueAndReserve(d: Desk, req: Request, p: PoolId, owner: OwnerId, id: AttemptId, now: Time)
    : (Desk, Reply<Option<AttemptId>>)
  {
    var (queued, q) := Enqueue(d, req, p, owner, now);
    match q
    case Clash => (queued, Clash)
    case Denial(retryable) => (queued, if retryable then Value(None) else Denial(false))
    case Value(_) => Reserve(queued, req, p, owner, None, id, now)
  }

  predicate Qualified(d: Desk, p: PoolId, now: Time) {
    && p in d.slots.pools && Open(d, p, now)
    && d.slots.pools[p].healthy && d.slots.pools[p].groupHealthy && d.slots.pools[p].target > 0
  }

  /** `try_reserve`. */
  function TryReserve(d: Desk, req: Request, p: PoolId, owner: OwnerId, id: AttemptId, now: Time): (Desk, Reply<Try>) {
    if !Qualified(d, p, now) then (d, Value(Refused(ModelNotReady)))
    else if req.dispatchBefore.Some? && now >= req.dispatchBefore.value then (d, Value(Refused(DispatchCutoff)))
    else if req.expectedEpoch.Some? && req.expectedEpoch.value != d.slots.pools[p].epoch
    then (d, Value(Refused(ModelNotReady)))
    else
      var (next, r) := QueueAndReserve(d, req, p, owner, id, now);
      match r
      case Value(Some(a)) => (next, Value(Given(a)))
      case Value(None) => (Undone(next, p, req.id), Value(Refused(InferenceCapacity)))
      case Clash => (Undone(next, p, req.id), Clash)
      case Denial(retryable) => (Undone(next, p, req.id), Denial(retryable))
  }

  // ---------------------------------------------------------------- readiness

  function Later(x: Time, y: Time): Time { if x <= y then y else x }

  /** `start`: `former` says until when work of a former process may still run on a pool. */
  function Started(d: Desk, former: map<PoolId, Time>, grace: nat, now: Time): Desk {
    d.(ready := map p | p in d.slots.pools :: if p in former then Later(now, former[p]) else now + grace,
       dirty := d.slots.pools.Keys * former.Keys)
  }

  /** The part of `_refresh` that reads one pool again: a healthy engine in a new epoch is ready at once. */
  function Reread(d: Desk, p: PoolId, view: PoolView, now: Time): Desk {
    var over := p in d.slots.pools && d.slots.pools[p].epoch != view.epoch && view.healthy && p in d.dirty;
    d.(slots := Step(d.slots, Refresh(p, view)), ready := if over then d.ready[p := now] else d.ready,
       dirty := if over then d.dirty - {p} else d.dirty)
  }

  /** `_probe_slots`, when a pool was found idle twice. */
  function Drained(d: Desk, p: PoolId, now: Time): Desk {
    if p in d.dirty then d.(ready := d.ready[p := now], dirty := d.dirty - {p}) else d
  }

  /** `_expire_dirty`.  That `_reserve` calls it first makes no difference to a grant, which reads `ready` alone. */
  function TimedOut(d: Desk, now: Time): Desk {
    d.(dirty := set p | p in d.dirty && !(p in d.ready && d.ready[p] <= now))
  }

  // ---------------------------------------------------------------- what every turn keeps

  predicate WaiterRow(d: Desk, id: Id) {
    && id in d.lines.waiters
    && (d.lines.waiters[id].direct ==>
          id in d.known && d.known[id].request.workload == d.lines.waiters[id].workload && d.known[id].request.id == id)
  }

  ghost predicate WithinLimits(d: Desk) {
    && (forall p :: Count(d.lines.queued, p) <= d.endpointLimit)
    && (forall p, t :: Count(d.lines.byTenant, (p, t)) <= d.tenantLimit)
  }

  /** Heaps, counters, waiting limits, permits, and the identities of direct waiters. */
  ghost predicate DeskOk(d: Desk) {
    && WellFormed(d.lines) && WithinLimits(d) && SlotsOk(d.slots)
    && (forall id {:trigger WaiterRow(d, id)} :: id in d.lines.waiters ==> WaiterRow(d, id))
  }

  /** Request identities and durable attempt identities are different. */
  predicate DirectId(d: Desk, id: Id) {
    id in d.lines.waiters ==> d.lines.waiters[id].direct
  }

  lemma JoinWithinLimits(d: Desk, req: Request, p: PoolId, owner: OwnerId, now: Time)
    requires WithinLimits(d) && !Full(d, req, p)
    ensures WithinLimits(d.(lines := Join(d.lines, req.id, WaiterOf(req, p, owner, now))))
  {
    var m := Join(d.lines, req.id, WaiterOf(req, p, owner, now));
    forall r ensures Count(m.queued, r) <= d.endpointLimit {
      assert Count(d.lines.queued, r) <= d.endpointLimit;
    }
    forall r, t ensures Count(m.byTenant, (r, t)) <= d.tenantLimit {
      assert Count(d.lines.byTenant, (r, t)) <= d.tenantLimit;
    }
  }

  lemma EnqueueOk(d: Desk, req: Request, p: PoolId, owner: OwnerId, now: Time)
    requires DeskOk(d) && DirectId(d, req.id)
    ensures DeskOk(Enqueue(d, req, p, owner, now).0)
    ensures Enqueue(d, req, p, owner, now).1.Value? ==> req.id in Enqueue(d, req, p, owner, now).0.lines.waiters
    ensures Enqueue(d, req, p, owner, now).0.slots == d.slots
  {
    var e := Enqueue(d, req, p, owner, now).0;
    if e != d {
      assert req.id in d.lines.waiters ==> WaiterRow(d, req.id);
      assert req.id !in d.lines.waiters;
      JoinWellFormed(d.lines, req.id, WaiterOf(req, p, owner, now));
      JoinWithinLimits(d, req, p, owner, now);
      assert WithinLimits(e);
      forall j | j in e.lines.waiters ensures WaiterRow(e, j) {
        assert j != req.id ==> WaiterRow(d, j);
      }
    }
  }

  lemma EvictedWithinLimits(d: Desk, lines: Lines)
    requires DeskOk(d) && WellFormed(lines) && lines.waiters.Keys <= d.lines.waiters.Keys
    requires forall id :: id in lines.waiters ==> lines.waiters[id] == d.lines.waiters[id]
    ensures DeskOk(d.(lines := lines))
  {
    var e := d.(lines := lines);
    forall p ensures Count(lines.queued, p) <= d.endpointLimit {
      SubsetSize(InPool(lines.waiters, p), InPool(d.lines.waiters, p));
      assert Count(d.lines.queued, p) == |InPool(d.lines.waiters, p)|;
    }
    forall p, t ensures Count(lines.byTenant, (p, t)) <= d.tenantLimit {
      SubsetSize(OfTenant(lines.waiters, p, t), OfTenant(d.lines.waiters, p, t));
      assert Count(d.lines.byTenant, (p, t)) == |OfTenant(d.lines.waiters, p, t)|;
    }
    forall id | id in lines.waiters ensures WaiterRow(e, id) {
      assert WaiterRow(d, id);
    }
  }

  lemma SlotsReplaced(d: Desk, slots: Slots)
    requires DeskOk(d) && SlotsOk(slots)
    ensures DeskOk(d.(slots := slots))
  {
    var e := d.(slots := slots);
    forall id | id in e.lines.waiters ensures WaiterRow(e, id) {
      assert WaiterRow(d, id);
    }
  }

  lemma ReserveOk(d: Desk, req: Request, p: PoolId, owner: OwnerId, previous: Option<AttemptId>, id: AttemptId,
                  now: Time)
    requires DeskOk(d) && id !in d.slots.record
    ensures DeskOk(Reserve(d, req, p, owner, previous, id, now).0)
    ensures var e := Reserve(d, req, p, owner, previous, id, now).0;
      forall j :: j in e.lines.waiters ==> j in d.lines.waiters && e.lines.waiters[j] == d.lines.waiters[j]
  {
    var r := Reserve(d, req, p, owner, previous, id, now);
    if r.0 != d {
      var lines := First(d.lines, p, now).0;
      FirstEvicts(d.lines, p, now);
      EvictedWithinLimits(d, lines);
      if r.1 == Value(Some(id)) {
        LeaveWellFormed(lines, req.id);
        EvictedWithinLimits(d.(lines := lines), Leave(lines, req.id));
        ReserveGrants(d, req, p, owner, previous, id, now);
        StepOk(d.slots, Grant(id, r.0.slots.record[id]));
        SlotsReplaced(d.(lines := Leave(lines, req.id)), r.0.slots);
      }
    }
  }

  /**
   A grant goes to the waiter alive that `_first` names, within capacity; it is a
   `Grant` step of the permits, and a new generation only follows an attempt that
   is over.
   */
  lemma ReserveGrants(d: Desk, req: Request, p: PoolId, owner: OwnerId, previous: Option<AttemptId>, id: AttemptId,
                      now: Time)
    requires WellFormed(d.lines) && id !in d.slots.record
    requires Reserve(d, req, p, owner, previous, id, now).1 == Value(Some(id))
    ensures var e := Reserve(d, req, p, owner, previous, id, now).0;
      && id in e.slots.record && Can(d.slots, Grant(id, e.slots.record[id]))
      && e.slots == Step(d.slots, Grant(id, e.slots.record[id]))
      && req.id !in e.lines.waiters && e.known == d.known
      && e.slots.record[id].generation <= 2
      && (if previous.None? then e.slots.record[id].generation == 0
          else previous.value in d.slots.record && d.slots.record[previous.value].request == Some(req)
               && Retryable(d.slots.record[previous.value].state)
               && e.slots.record[id].generation == d.slots.record[previous.value].generation + 1)
    ensures Alive(d.lines, p, now, req.id)
    ensures First(d.lines, p, now).1 == Some(req.id)
  {
    FirstEvicts(d.lines, p, now);
    FirstHead(d.lines, p, now);
  }

  lemma UndoneOk(d: Desk, p: PoolId, id: Id)
    requires DeskOk(d) && DirectId(d, id)
    ensures DeskOk(Undone(d, p, id))
  {
    EraseWellFormed(d.lines, p, id);
    var e := d.(lines := Erase(d.lines, p, id));
    EvictedWithinLimits(d, e.lines);
    forall j | j in e.lines.waiters ensures WaiterRow(Undone(d, p, id), j) {
      assert WaiterRow(e, j);
    }
  }

  lemma QueueAndReserveOk(d: Desk, req: Request, p: PoolId, owner: OwnerId, id: AttemptId, now: Time)
    requires DeskOk(d) && DirectId(d, req.id) && id !in d.slots.record
    ensures DeskOk(QueueAndReserve(d, req, p, owner, id, now).0)
    ensures DirectId(QueueAndReserve(d, req, p, owner, id, now).0, req.id)
  {
    var queued := Enqueue(d, req, p, owner, now).0;
    EnqueueOk(d, req, p, owner, now);
    assert DirectId(queued, req.id);
    ReserveOk(queued, req, p, owner, None, id, now);
  }

  lemma TryReserveOk(d: Desk, req: Request, p: PoolId, owner: OwnerId, id: AttemptId, now: Time)
    requires DeskOk(d) && DirectId(d, req.id) && id !in d.slots.record
    ensures DeskOk(TryReserve(d, req, p, owner, id, now).0)
  {
    QueueAndReserveOk(d, req, p, owner, id, now);
    UndoneOk(QueueAndReserve(d, req, p, owner, id, now).0, p, req.id);
  }

  // ---------------------------------------------------------------- what a refusal leaves behind

  lemma {:induction false} WithoutSuffix(q: seq<Entry>, k: nat, id: Id) returns (j: nat)
    requires k <= |q|
    ensures j <= |Without(q, id)| && Without(q[k..], id) == Without(q, id)[j..]
    ensures forall e :: e in Without(q, id)[..j] ==> e in q[..k]
  {
    if k == 0 {
      j := 0;
      assert q[0..] == q;
    } else {
      var i := WithoutSuffix(q[1..], k - 1, id);
      assert q[1..][k - 1..] == q[k..];
      assert q[..k] == [q[0]] + q[1..][..k - 1];
      j := if q[0].id == id then i else i + 1;
      assert q[0].id != id ==> Without(q, id)[..j] == [q[0]] + Without(q[1..], id)[..i];
    }
  }

  /** `m` is `l` without request `id`, and without dead heap entries and expired waiters of pool `p`. */
  ghost predicate Cleans(l: Lines, m: Lines, p: PoolId, id: Id, now: Time) {
    && m.waiters.Keys <= l.waiters.Keys && id !in m.waiters
    && (forall j :: j in l.waiters ==>
          if j in m.waiters then m.waiters[j] == l.waiters[j]
          else j == id || (l.waiters[j].pool == p && l.waiters[j].deadline <= now))
    && (forall r :: r != p ==> Queue(m, r) == Queue(l, r))
    && (exists k: nat :: k <= |Without(Queue(l, p), id)| && Queue(m, p) == Without(Queue(l, p), id)[k..]
          && forall e :: e in Without(Queue(l, p), id)[..k] ==> !Matches(m.waiters, p, e))
  }

  lemma ErasedSuffix(q: seq<Entry>, rest: seq<Entry>, ws: map<Id, Waiter>, p: PoolId, id: Id) returns (j: nat)
    requires exists k: nat :: k <= |q| && rest == q[k..] && forall e :: e in q[..k] ==> !Matches(ws, p, e)
    ensures j <= |Without(q, id)| && Without(rest, id) == Without(q, id)[j..]
    ensures forall e :: e in Without(q, id)[..j] ==> !Matches(ws, p, e)
  {
    var k: nat :| k <= |q| && rest == q[k..] && forall e :: e in q[..k] ==> !Matches(ws, p, e);
    j := WithoutSuffix(q, k, id);
  }

  /** Evicting and then erasing a request is cleaning. */
  lemma EvictedErased(l: Lines, m: Lines, p: PoolId, id: Id, now: Time)
    requires Evicts(l, m, p, now)
    ensures Cleans(l, Erase(m, p, id), p, id, now)
  {
    var erased := Erase(m, p, id);
    var j := ErasedSuffix(Queue(l, p), Queue(m, p), m.waiters, p, id);
    assert Queue(erased, p) == Without(Queue(m, p), id);
    forall e | e in Without(Queue(l, p), id)[..j] ensures !Matches(erased.waiters, p, e) {
      assert !Matches(m.waiters, p, e);
    }
    forall r | r != p ensures Queue(erased, r) == Queue(l, r) {
      assert Queue(m, r) == Queue(l, r);
    }
  }

  /** So is joining, evicting and erasing again. */
  lemma JoinedErased(l: Lines, id: Id, w: Waiter, m: Lines, now: Time)
    requires id !in l.waiters && Evicts(Join(l, id, w), m, w.pool, now)
    ensures Cleans(l, Erase(m, w.pool, id), w.pool, id, now)
  {
    var joined := Join(l, id, w);
    EvictedErased(joined, m, w.pool, id, now);
    WithoutPushed(Queue(l, w.pool), EntryOf(id, w));
    assert forall r :: r != w.pool ==> Queue(joined, r) == Queue(l, r);
  }

  lemma EvictsNothing(l: Lines, p: PoolId, now: Time)
    ensures Evicts(l, l, p, now)
  {
    assert Queue(l, p)[0..] == Queue(l, p);
  }

  predicate RefusedTry(r: Reply<Try>) {
    !(r.Value? && r.value.Given?)
  }

  predicate NotGranted(r: Reply<Option<AttemptId>>) {
    !(r.Value? && r.value.Some?)
  }

  /** Past its first checks `try_reserve` queues the request. */
  predicate Attempted(d: Desk, req: Request, p: PoolId, now: Time) {
    && Qualified(d, p, now)
    && !(req.dispatchBefore.Some? && now >= req.dispatchBefore.value)
    && !(req.expectedEpoch.Some? && req.expectedEpoch.value != d.slots.pools[p].epoch)
  }

  /** `_enqueue` changes nothing or joins a request that was not waiting. */
  ghost predicate Enrolls(d: Desk, e: Desk, req: Request, p: PoolId, owner: OwnerId, now: Time) {
    e == d || (req.id !in d.lines.waiters
               && e == d.(lines := Join(d.lines, req.id, WaiterOf(req, p, owner, now)),
                          known := d.known[req.id := Known(req, owner, now + d.ttl)]))
  }

  lemma EnqueueShape(d: Desk, req: Request, p: PoolId, owner: OwnerId, now: Time)
    requires req.id in d.lines.waiters ==> req.id in d.known
    ensures Enrolls(d, Enqueue(d, req, p, owner, now).0, req, p, owner, now)
  {
  }

  lemma ReserveShape(d: Desk, req: Request, p: PoolId, owner: OwnerId, id: AttemptId, now: Time)
    requires WellFormed(d.lines) && NotGranted(Reserve(d, req, p, owner, None, id, now).1)
    ensures var e := Reserve(d, req, p, owner, None, id, now).0;
      e == d.(lines := e.lines) && Evicts(d.lines, e.lines, p, now)
  {
    EvictsNothing(d.lines, p, now);
    FirstEvicts(d.lines, p, now);
  }

  /** What the clean-up of a refusal finds: the lines with or without the request joined, perhaps evicted from. */
  ghost predicate Tried(d: Desk, e: Desk, req: Request, p: PoolId, owner: OwnerId, now: Time) {
    && e == d.(lines := e.lines, known := e.known) && e.known - {req.id} == d.known - {req.id}
    && (Evicts(d.lines, e.lines, p, now)
        || (req.id !in d.lines.waiters
            && Evicts(Join(d.lines, req.id, WaiterOf(req, p, owner, now)), e.lines, p, now)))
  }

  lemma EnrolledTried(d: Desk, queued: Desk, e: Desk, req: Request, p: PoolId, owner: OwnerId, now: Time)
    requires Enrolls(d, queued, req, p, owner, now)
    requires e == queued.(lines := e.lines) && Evicts(queued.lines, e.lines, p, now)
    ensures Tried(d, e, req, p, owner, now)
  {
    assert d.known[req.id := Known(req, owner, now + d.ttl)] - {req.id} == d.known - {req.id};
  }

  lemma RefusedShape(d: Desk, req: Request, p: PoolId, owner: OwnerId, id: AttemptId, now: Time)
    requires WellFormed(d.lines) && (req.id in d.lines.waiters ==> req.id in d.known)
    requires NotGranted(QueueAndReserve(d, req, p, owner, id, now).1)
    ensures Tried(d, QueueAndReserve(d, req, p, owner, id, now).0, req, p, owner, now)
  {
    var (queued, q) := Enqueue(d, req, p, owner, now);
    EnqueueShape(d, req, p, owner, now);
    if queued != d {
      JoinWellFormed(d.lines, req.id, WaiterOf(req, p, owner, now));
    }
    if q.Value? {
      ReserveShape(queued, req, p, owner, id, now);
    } else {
      EvictsNothing(queued.lines, p, now);
    }
    EnrolledTried(d, queued, QueueAndReserve(d, req, p, owner, id, now).0, req, p, owner, now);
  }

  lemma TriedErased(d: Desk, e: Desk, req: Request, p: PoolId, owner: OwnerId, now: Time)
    requires WellFormed(d.lines) && Tried(d, e, req, p, owner, now)
    ensures var u := Undone(e, p, req.id);
      && u == d.(lines := u.lines, known := d.known - {req.id})
      && (forall x :: x in Queue(u.lines, p) ==> x.id != req.id)
      && Cleans(d.lines, u.lines, p, req.id, now)
  {
    if Evicts(d.lines, e.lines, p, now) {
      EvictedErased(d.lines, e.lines, p, req.id, now);
    } else {
      JoinedErased(d.lines, req.id, WaiterOf(req, p, owner, now), e.lines, now);
    }
    assert Sorted(Queue(d.lines, p));
    WithoutSorted(Queue(d.lines, p), req.id);
  }

  /**
   Past its first checks a refused `try_reserve` grants nothing and erases its
   request: waiter, identity and every heap entry of the pool.  All it removes
   besides are expired waiters and dead heap entries of the pool.
   */
  lemma RefusalErases(d: Desk, req: Request, p: PoolId, owner: OwnerId, id: AttemptId, now: Time)
    requires DeskOk(d) && DirectId(d, req.id) && id !in d.slots.record && Attempted(d, req, p, now)
    requires RefusedTry(TryReserve(d, req, p, owner, id, now).1)
    ensures var e := TryReserve(d, req, p, owner, id, now).0;
      && e == d.(lines := e.lines, known := d.known - {req.id})
      && (forall x :: x in Queue(e.lines, p) ==> x.id != req.id)
      && WellFormed(e.lines) && Cleans(d.lines, e.lines, p, req.id, now)
  {
    assert req.id in d.lines.waiters ==> WaiterRow(d, req.id);
    TryReserveOk(d, req, p, owner, id, now);
    RefusedShape(d, req, p, owner, id, now);
    TriedErased(d, QueueAndReserve(d, req, p, owner, id, now).0, req, p, owner, now);
  }

  /** Only what is dead is gone: heap entries without a waiter, and waiters of the pool that expired. */
  ghost predicate NoTrace(d: Desk, e: Desk, p: PoolId, id: Id, now: Time) {
    && e == d.(lines := e.lines) && Cleans(d.lines, e.lines, p, id, now)
    && (id in d.lines.waiters ==> d.lines.waiters[id].pool == p && d.lines.waiters[id].deadline <= now)
  }

  /** A refusal leaves no trace, as it promises, exactly when its request was neither waiting nor known before. */
  lemma RefusalLeavesNoTrace(d: Desk, req: Request, p: PoolId, owner: OwnerId, id: AttemptId, now: Time)
    requires DeskOk(d) && DirectId(d, req.id) && id !in d.slots.record
    requires RefusedTry(TryReserve(d, req, p, owner, id, now).1)
    ensures var e := TryReserve(d, req, p, owner, id, now).0;
      if Attempted(d, req, p, now)
      then NoTrace(d, e, p, req.id, now) <==> req.id !in d.lines.waiters && req.id !in d.known
      else e == d
  {
    if Attempted(d, req, p, now) {
      RefusalErases(d, req, p, owner, id, now);
      assert req.id in d.lines.waiters ==> WaiterRow(d, req.id);
      if req.id !in d.known {
        assert d.known - {req.id} == d.known;
      }
    }
  }

  // ---------------------------------------------------------------- the scheduler as an object

  lemma OneLess<T>(all: set<T>, rest: set<T>, a: T)
    requires a in rest
    ensures all - (rest - {a}) == if a in all then all - rest + {a} else all - rest
  {
  }

  lemma EndNone(s: Slots)
    ensures EndAll(s, {}) == s
  {
    assert EndAll(s, {}).record == s.record;
  }

  lemma EndMore(s: Slots, done: set<AttemptId>, a: AttemptId, p: PoolId, epoch: Epoch)
    requires a in s.record && a in s.permits && a !in done
    ensures EndAll(EndAll(s, done), {a}) == EndAll(s, done + {a})
    ensures a in EndAll(s, done).record && a in EndAll(s, done).permits
    ensures Outlived(EndAll(s, done), p, epoch, a) <==> a in OutlivedSet(s, p, epoch)
  {
    assert EndAll(EndAll(s, done), {a}).record == EndAll(s, done + {a}).record;
    assert EndAll(EndAll(s, done), {a}).permits == EndAll(s, done + {a}).permits;
  }

  lemma RecoverNone(s: Slots)
    ensures RecoverAll(s, {}) == s
  {
    assert RecoverAll(s, {}).record == s.record;
  }

  lemma RecoverMore(s: Slots, done: set<AttemptId>, a: AttemptId, p: PoolId, epoch: Epoch, since: Time,
                    ids: set<AttemptId>)
    requires a in s.record && a in s.permits && a !in done
    ensures RecoverAll(RecoverAll(s, done), {a}) == RecoverAll(s, done + {a})
    ensures a in RecoverAll(s, done).record && a in RecoverAll(s, done).permits
    ensures Idle(RecoverAll(s, done), p, epoch, since, ids, a) <==> a in IdleSet(s, p, epoch, since, ids)
  {
    assert RecoverAll(RecoverAll(s, done), {a}).record == RecoverAll(s, done + {a}).record;
    assert RecoverAll(RecoverAll(s, done), {a}).permits == RecoverAll(s, done + {a}).permits;
  }

  class Scheduler {
    const endpointLimit: nat
    const tenantLimit: nat
    const ttl: nat
    var pools: map<PoolId, PoolView>
    var ready: map<PoolId, Time>
    var dirty: set<PoolId>
    var controlReady: bool
    var waiters: map<Id, Waiter>
    var queues: map<PoolId, seq<Entry>>
    var queueCounts: map<PoolId, int>
    var tenantCounts: map<(PoolId, TenantId), int>
    var known: map<Id, Known>
    var record: map<AttemptId, Permit>
    var permits: set<AttemptId>
    var directAttempts: seq<AttemptId>
    var unknownIdle: map<PoolId, Streak>

    function TheLines(): Lines
      reads this
    {
      Lines(waiters, queues, queueCounts, tenantCounts)
    }

    function TheSlots(): Slots
      reads this
    {
      Slots(pools, record, permits, directAttempts, unknownIdle)
    }

    /** The state the functions above speak of. */
    function State(): Desk
      reads this
    {
      Desk(TheLines(), TheSlots(), known, ready, dirty, controlReady, endpointLimit, tenantLimit, ttl)
    }

    constructor (endpointLimit: nat, tenantLimit: nat, ttl: nat)
      ensures DeskOk(State()) && Booted(TheSlots()) && waiters == map[] && permits == {}
    {
      this.endpointLimit, this.tenantLimit, this.ttl, controlReady := endpointLimit, tenantLimit, ttl, true;
      pools, ready, waiters, queues, queueCounts, tenantCounts := map[], map[], map[], map[], map[], map[];
      known, record, permits, directAttempts, unknownIdle, dirty := map[], map[], {}, [], map[], {};
      new;
      assert forall p :: InPool(waiters, p) == {};
      assert forall p, t :: OfTenant(waiters, p, t) == {};
    }

    // -------------------------------------------------------------- waiting lines

    /** `_add_waiter`. */
    method AddWaiter(id: Id, w: Waiter)
      modifies this`waiters, this`queues, this`queueCounts, this`tenantCounts
      ensures TheLines() == Join(old(TheLines()), id, w)
    {
      waiters := waiters[id := w];
      queues := queues[w.pool := Push(if w.pool in queues then queues[w.pool] else [], EntryOf(id, w))];
      if w.direct {
        queueCounts := queueCounts[w.pool := Count(queueCounts, w.pool) + 1];
        tenantCounts := tenantCounts[(w.pool, w.tenant) := Count(tenantCounts, (w.pool, w.tenant)) + 1];
      }
    }

    /** `_remove_waiter`. */
    method RemoveWaiter(id: Id)
      modifies this`waiters, this`queueCounts, this`tenantCounts
      ensures TheLines() == Leave(old(TheLines()), id)
    {
      if id !in waiters {
        return;
      }
      var w := waiters[id];
      waiters := waiters - {id};
      if w.direct {
        queueCounts := queueCounts[w.pool := Count(queueCounts, w.pool) - 1];
        tenantCounts := tenantCounts[(w.pool, w.tenant) := Count(tenantCounts, (w.pool, w.tenant)) - 1];
      }
    }

    /** `_first`. */
    method FirstOf(p: PoolId, now: Time) returns (first: Option<Id>)
      modifies this`waiters, this`queues, this`queueCounts, this`tenantCounts
      ensures (TheLines(), first) == First(old(TheLines()), p, now)
    {
      while p in queues && queues[p] != []
        invariant First(TheLines(), p, now) == First(old(TheLines()), p, now)
        decreases |Queue(TheLines(), p)|, |waiters|
      {
        var head := queues[p][0];
        if Matches(waiters, p, head) {
          if waiters[head.id].deadline > now {
            return Some(head.id);
          }
          RemoveWaiter(head.id);
        } else {
          queues := queues[p := queues[p][1..]];
        }
      }
      return None;
    }

    // -------------------------------------------------------------- direct requests

    /** `_enqueue`. */
    method EnqueueDirect(req: Request, p: PoolId, owner: OwnerId, now: Time) returns (reply: Reply<Time>)
      modifies this`waiters, this`queues, this`queueCounts, this`tenantCounts, this`known
      ensures (State(), reply) == Enqueue(old(State()), req, p, owner, now)
    {
      if p !in pools {
        return Denial(true);
      }
      if req.id in known {
        if known[req.id].request != req || known[req.id].owner != owner {
          return Clash;
        }
        if req.id in waiters {
          return Value(waiters[req.id].queuedAt);
        }
        var latest := LatestOf(req.id);
        if latest.Some? && latest.value in record && !Retryable(record[latest.value].state) {
          return Clash;
        }
      }
      if req.deadline <= now {
        return Denial(true);
      }
      if Count(queueCounts, p) >= endpointLimit || Count(tenantCounts, (p, req.tenant)) >= tenantLimit {
        return Denial(true);
      }
      if !Fits(req.need, pools[p].offer) {
        return Denial(false);
      }
      Admit(req, p, owner, now);
      return Value(now);
    }

    method Admit(req: Request, p: PoolId, owner: OwnerId, now: Time)
      modifies this`waiters, this`queues, this`queueCounts, this`tenantCounts, this`known
      ensures State() == old(State()).(lines := Join(old(TheLines()), req.id, WaiterOf(req, p, owner, now)),
                                       known := old(known)[req.id := Known(req, owner, now + ttl)])
    {
      AddWaiter(req.id, WaiterOf(req, p, owner, now));
      known := known[req.id := Known(req, owner, now + ttl)];
    }

    /** The latest attempt of a request, found in the order the attempts were entered. */
    method LatestOf(id: Id) returns (latest: Option<AttemptId>)
      ensures latest == Latest(TheSlots(), directAttempts, id)
    {
      latest := None;
      var k := 0;
      while k < |directAttempts|
        invariant k <= |directAttempts| && latest == Latest(TheSlots(), directAttempts[..k], id)
      {
        assert directAttempts[..k + 1][..k] == directAttempts[..k];
        var a := directAttempts[k];
        if a in record && record[a].request.Some? && record[a].request.value.id == id
           && (latest.None? || latest.value !in record || record[a].generation > record[latest.value].generation) {
          latest := Some(a);
        }
        k := k + 1;
      }
      assert directAttempts[..k] == directAttempts;
    }

    /** `_reserve`. */
    method ReserveDirect(req: Request, p: PoolId, owner: OwnerId, previous: Option<AttemptId>, id: AttemptId, now: Time)
      returns (reply: Reply<Option<AttemptId>>)
      modifies this`waiters, this`queues, this`queueCounts, this`tenantCounts, this`record, this`permits,
        this`directAttempts
      ensures (State(), reply) == Reserve(old(State()), req, p, owner, previous, id, now)
    {
      if p !in pools {
        return Denial(true);
      }
      if req.id !in waiters || waiters[req.id].owner != owner {
        return Value(None);
      }
      if req.deadline <= now || !controlReady || p !in ready || now < ready[p] {
        return Value(None);
      }
      if !Fits(req.need, pools[p].offer) {
        return Denial(false);
      }
      var generation := 0;
      match NextGeneration(TheSlots(), req, p, owner, previous) {
        case Clash => return Clash;
        case Denial(retryable) => return Denial(retryable);
        case Value(None) => return Value(None);
        case Value(Some(n)) => generation := n;
      }
      reply := GrantIfHead(req, p, owner, generation, id, now);
    }

    method GrantIfHead(req: Request, p: PoolId, owner: OwnerId, generation: nat, id: AttemptId, now: Time)
      returns (reply: Reply<Option<AttemptId>>)
      requires p in pools
      modifies this`waiters, this`queues, this`queueCounts, this`tenantCounts, this`record, this`permits,
        this`directAttempts
      ensures (State(), reply) == GrantHead(old(State()), req, p, owner, generation, id, now)
    {
      var first := FirstOf(p, now);
      if first != Some(req.id) || !TryAcquire(TheSlots(), p, req.workload) {
        return Value(None);
      }
      RemoveWaiter(req.id);
      IssuePermit(req, p, owner, generation, id);
      return Value(Some(id));
    }

    method IssuePermit(req: Request, p: PoolId, owner: OwnerId, generation: nat, id: AttemptId)
      requires p in pools
      modifies this`record, this`permits, this`directAttempts
      ensures TheSlots() == Step(old(TheSlots()), Grant(id, NewPermit(old(TheSlots()), req, p, owner, generation)))
    {
      record := record[id := NewPermit(TheSlots(), req, p, owner, generation)];
      permits := permits + {id};
      directAttempts := directAttempts + [id];
    }

    /** `try_reserve`. */
    method TryReserveDirect(req: Request, p: PoolId, owner: OwnerId, id: AttemptId, now: Time)
      returns (reply: Reply<Try>)
      modifies this
      ensures (State(), reply) == TryReserve(old(State()), req, p, owner, id, now)
    {
      if p !in pools || !controlReady || !pools[p].healthy || !pools[p].groupHealthy || pools[p].target == 0
         || p !in ready || now < ready[p] {
        return Value(Refused(ModelNotReady));
      }
      if req.dispatchBefore.Some? && now >= req.dispatchBefore.value {
        return Value(Refused(DispatchCutoff));
      }
      if req.expectedEpoch.Some? && req.expectedEpoch.value != pools[p].epoch {
        return Value(Refused(ModelNotReady));
      }
      var r := QueueThenReserve(req, p, owner, id, now);
      if r.Value? && r.value.Some? {
        return Value(Given(r.value.value));
      }
      Undo(p, req.id);
      match r {
        case Clash => return Clash;
        case Denial(retryable) => return Denial(retryable);
        case Value(_) => return Value(Refused(InferenceCapacity));
      }
    }

    /** The `finally` clause of a refused `try_reserve`. */
    method Undo(p: PoolId, id: Id)
      modifies this`waiters, this`queues, this`queueCounts, this`tenantCounts, this`known
      ensures State() == Undone(old(State()), p, id)
    {
      RemoveWaiter(id);
      known := known - {id};
      if p in queues {
        queues := queues[p := Without(queues[p], id)];
      }
    }

    method QueueThenReserve(req: Request, p: PoolId, owner: OwnerId, id: AttemptId, now: Time)
      returns (reply: Reply<Option<AttemptId>>)
      modifies this
      ensures (State(), reply) == QueueAndReserve(old(State()), req, p, owner, id, now)
    {
      var q := EnqueueDirect(req, p, owner, now);
      match q {
        case Clash => return Clash;
        case Denial(retryable) => return if retryable then Value(None) else Denial(false);
        case Value(_) =>
          reply := ReserveDirect(req, p, owner, None, id, now);
      }
    }

    /** `mark_send`: the permit must be reserved and held, and its request must have time left. */
    method MarkSendDirect(a: AttemptId, now: Time) returns (ok: bool)
      requires SlotsOk(TheSlots())
      modifies this`record
      ensures ok <==> Can(old(TheSlots()), MarkSend(a))
                      && !(old(record)[a].request.Some? && old(record)[a].request.value.deadline <= now)
      ensures TheSlots() == if ok then Step(old(TheSlots()), MarkSend(a)) else old(TheSlots())
    {
      assert PermitRow(TheSlots(), a);
      if a !in directAttempts || record[a].state != PReserved || a !in permits
         || (record[a].request.Some? && record[a].request.value.deadline <= now) {
        return false;
      }
      record := record[a := record[a].(state := PSendIntent)];
      return true;
    }

    /** `finish`. */
    method FinishDirect(a: AttemptId, completed: bool) returns (ok: bool)
      requires SlotsOk(TheSlots())
      modifies this`record, this`permits
      ensures ok == Can(old(TheSlots()), Finish(a, completed))
      ensures TheSlots() == if ok then Step(old(TheSlots()), Finish(a, completed)) else old(TheSlots())
    {
      assert PermitRow(TheSlots(), a);
      if a !in directAttempts || (completed && record[a].state == PReserved) {
        return false;
      }
      if a in permits {
        record := record[a := record[a].(state := if completed then PFinished else PFailedNotSent)];
        permits := permits - {a};
      }
      return true;
    }

    /** `unknown`. */
    method UnknownDirect(a: AttemptId, now: Time) returns (ok: bool)
      requires SlotsOk(TheSlots())
      modifies this`record
      ensures ok == Can(old(TheSlots()), Lose(a, now))
      ensures TheSlots() == if ok then Step(old(TheSlots()), Lose(a, now)) else old(TheSlots())
    {
      assert PermitRow(TheSlots(), a);
      if a !in directAttempts {
        return false;
      }
      if a in permits {
        record := record[a := record[a].(state := PUnknown, unknownAt := Some(now))];
      }
      return true;
    }

    // -------------------------------------------------------------- maintenance

    /** When each pool is ready after a start, and which pools wait for work of a former process. */
    method StartTimes(former: map<PoolId, Time>, grace: nat, now: Time)
      returns (at: map<PoolId, Time>, unclean: set<PoolId>)
      ensures at == Started(State(), former, grace, now).ready && unclean == Started(State(), former, grace, now).dirty
    {
      var rest := pools.Keys;
      at, unclean := map[], {};
      while rest != {}
        invariant rest <= pools.Keys && forall p :: p in at <==> p in pools && p !in rest
        invariant forall p :: p in unclean <==> p in at && p in former
        invariant forall p :: p in at ==> at[p] == if p in former then Later(now, former[p]) else now + grace
        decreases |rest|
      {
        var p :| p in rest;
        if p in former {
          at, unclean := at[p := Later(now, former[p])], unclean + {p};
        } else {
          at := at[p := now + grace];
        }
        rest := rest - {p};
      }
    }

    /** `start`, after its first read of the pools. */
    method Start(former: map<PoolId, Time>, grace: nat, now: Time)
      modifies this`ready, this`dirty
      ensures State() == TimedOut(Started(old(State()), former, grace, now), now)
    {
      ready, dirty := StartTimes(former, grace, now);
      ExpireDirty(now);
    }

    /** `_expire_dirty`. */
    method ExpireDirty(now: Time)
      modifies this`dirty
      ensures State() == TimedOut(old(State()), now)
    {
      dirty := set p | p in dirty && !(p in ready && ready[p] <= now);
    }

    /** `_probe_slots`, for a pool found idle twice. */
    method Drain(p: PoolId, now: Time)
      modifies this`ready, this`dirty
      ensures State() == Drained(old(State()), p, now)
    {
      if p in dirty {
        ready, dirty := ready[p := now], dirty - {p};
      }
    }

    /** `_maintain`: a turn of maintenance that failed closes every pool until one succeeds. */
    method SetControl(ok: bool)
      modifies this`controlReady
      ensures State() == old(State()).(controlReady := ok)
    {
      controlReady := ok;
    }

    /** The part of `_refresh` that reads one pool again. */
    method RefreshPool(p: PoolId, view: PoolView, now: Time)
      requires SlotsOk(TheSlots())
      modifies this`pools, this`record, this`permits, this`ready, this`dirty
      ensures State() == Reread(old(State()), p, view, now)
    {
      var changed := p in pools && pools[p].epoch != view.epoch;
      forall a | a in permits ensures a in record {
        assert PermitRow(TheSlots(), a);
      }
      pools := pools[p := view];
      if changed {
        EndOutlived(p, view.epoch);
        if view.healthy && p in dirty {
          ready, dirty := ready[p := now], dirty - {p};
        }
      }
    }

    /** End the direct permits of a pool whose engine epoch is over. */
    method EndOutlived(p: PoolId, epoch: Epoch)
      requires permits <= record.Keys
      modifies this`record, this`permits
      ensures TheSlots() == EndAll(old(TheSlots()), OutlivedSet(old(TheSlots()), p, epoch))
    {
      ghost var was := TheSlots();
      ghost var ends := OutlivedSet(was, p, epoch);
      var rest := permits;
      EndNone(was);
      assert ends - rest == {};
      while rest != {}
        invariant rest <= was.permits <= was.record.Keys
        invariant TheSlots() == EndAll(was, ends - rest)
        decreases |rest|
      {
        var a :| a in rest;
        EndMore(was, ends - rest, a, p, epoch);
        EndIfOutlived(a, p, epoch);
        OneLess(ends, rest, a);
        rest := rest - {a};
      }
      assert ends - rest == ends;
    }

    method EndIfOutlived(a: AttemptId, p: PoolId, epoch: Epoch)
      requires a in record && a in permits
      modifies this`record, this`permits
      ensures TheSlots() == if Outlived(old(TheSlots()), p, epoch, a) then EndAll(old(TheSlots()), {a})
        else old(TheSlots())
    {
      var t := record[a];
      if t.pool == p && t.epoch != epoch && t.direct {
        record := record[a := t.(state := if t.state == PReserved then PFailedNotSent else PFailedRecoverable)];
        permits := permits - {a};
        assert record == EndAll(old(TheSlots()), {a}).record;
      }
    }

    /** The end of one turn of `_settle_idle_unknown`; `durable` is what the ledger is then asked to settle. */
    method EndProbe(pr: Probe) returns (durable: set<AttemptId>)
      requires SlotsOk(TheSlots())
      modifies this`unknownIdle, this`record, this`permits
      ensures TheSlots() == Step(old(TheSlots()), ProbeEnds(pr))
      ensures durable == HandedOn(old(TheSlots()), pr)
    {
      durable := {};
      if pr.proof.None? {
        unknownIdle := unknownIdle - {pr.pool};
        return;
      }
      var (key, proven) := pr.proof.value;
      var since, streak, probes := pr.started, proven, 0;
      if pr.pool in unknownIdle && unknownIdle[pr.pool].epoch == pr.epoch && unknownIdle[pr.pool].key == key {
        since, streak, probes := unknownIdle[pr.pool].since, unknownIdle[pr.pool].ids * proven, 1;
      }
      if streak == {} {
        unknownIdle := unknownIdle - {pr.pool};
      } else if probes + 1 < 2 {
        unknownIdle := unknownIdle[pr.pool := Streak(pr.epoch, key, since, streak)];
      } else {
        unknownIdle := unknownIdle - {pr.pool};
        forall a | a in permits ensures a in record {
          assert PermitRow(old(TheSlots()), a);
        }
        durable := set a | a in permits && a in streak && record[a].pool == pr.pool && record[a].state == PUnknown
          && !record[a].direct;
        Recover(pr.pool, pr.epoch, since, streak);
      }
    }

    /** Settle the lost direct attempts of a streak. */
    method Recover(p: PoolId, epoch: Epoch, since: Time, streak: set<AttemptId>)
      requires permits <= record.Keys
      modifies this`record, this`permits
      ensures TheSlots() == RecoverAll(old(TheSlots()), IdleSet(old(TheSlots()), p, epoch, since, streak))
    {
      ghost var was := TheSlots();
      ghost var ends := IdleSet(was, p, epoch, since, streak);
      var rest := permits;
      RecoverNone(was);
      assert ends - rest == {};
      while rest != {}
        invariant rest <= was.permits <= was.record.Keys
        invariant TheSlots() == RecoverAll(was, ends - rest)
        decreases |rest|
      {
        var a :| a in rest;
        RecoverMore(was, ends - rest, a, p, epoch, since, streak);
        RecoverIfIdle(a, p, epoch, since, streak);
        OneLess(ends, rest, a);
        rest := rest - {a};
      }
      assert ends - rest == ends;
    }

    method RecoverIfIdle(a: AttemptId, p: PoolId, epoch: Epoch, since: Time, streak: set<AttemptId>)
      requires a in record && a in permits
      modifies this`record, this`permits
      ensures TheSlots() == if Idle(old(TheSlots()), p, epoch, since, streak, a) then RecoverAll(old(TheSlots()), {a})
                            else old(TheSlots())
    {
      var t := record[a];
      if t.pool == p && a in streak && t.state == PUnknown && t.direct && t.epoch == epoch
         && t.unknownAt.Some? && t.unknownAt.value < since {
        record := record[a := t.(state := PFailedRecoverable, idleVerified := true)];
        permits := permits - {a};
        assert record == RecoverAll(old(TheSlots()), {a}).record;
      }
    }

    /** `_reconcile_durable`, after its read: `held` are the rows that hold compute or are still reserved. */
    method ReconcileDurable(active: set<AttemptId>, held: map<AttemptId, PermitState>)
      requires SlotsOk(TheSlots()) && active !! Direct(TheSlots())
      modifies this`record, this`permits
      ensures TheSlots() == Step(old(TheSlots()), Sync(map a | a in held && a in active :: held[a], active - held.Keys))
    {
      record := map a | a in record :: if a in held && a in active then record[a].(state := held[a]) else record[a];
      permits := permits - (active - held.Keys);
    }
  }
}
