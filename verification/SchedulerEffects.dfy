/** What the scheduler does for whom, condition by condition: who may queue, who gets a permit, and what ends one. */
module SchedulerEffects {
  // Said of waiters, permits and pools themselves, not through the functions that
  // compute the next state.

  import opened Ledger
  import opened MemoryScheduler
  import opened Permits
  import opened WaitQueue

  // ---------------------------------------------------------------- permits

  /** No other permit, and nothing about pools and probes, changes. */
  ghost predicate OnlyPermit(s: Slots, t: Slots, a: AttemptId) {
    && t.pools == s.pools && t.direct == s.direct && t.idle == s.idle
    && a in s.record && t.record.Keys == s.record.Keys
    && (forall b :: b in s.record && b != a ==> t.record[b] == s.record[b])
    && (forall b :: b != a ==> (b in t.permits <==> b in s.permits))
  }

  /** Evidence ends a permit that is held, and says nothing about one that is not. */
  lemma FinishDoes(s: Slots, a: AttemptId, completed: bool)
    requires SlotsOk(s) && a in s.direct
    ensures PermitRow(s, a) && (Can(s, Finish(a, completed)) <==> !(completed && s.record[a].state == PReserved))
    ensures var t := Step(s, Finish(a, completed));
      if a in s.permits
      then OnlyPermit(s, t, a) && a !in t.permits
           && t.record[a] == s.record[a].(state := if completed then PFinished else PFailedNotSent)
      else t == s
  {
    assert PermitRow(s, a);
  }

  /** A lost answer leaves the permit held, and notes when it was lost. */
  lemma LoseDoes(s: Slots, a: AttemptId, now: Time)
    requires SlotsOk(s) && a in s.direct
    ensures var t := Step(s, Lose(a, now));
      if a in s.permits
      then OnlyPermit(s, t, a) && a in t.permits
           && t.record[a] == s.record[a].(state := PUnknown, unknownAt := Some(now))
      else t == s
  {
    assert PermitRow(s, a);
  }

  /** Only a reserved permit that is held is marked as sent. */
  lemma MarkSendDoes(s: Slots, a: AttemptId)
    requires SlotsOk(s)
    ensures Can(s, MarkSend(a)) <==> a in s.direct && a in s.permits && a in s.record && s.record[a].state == PReserved
    ensures Can(s, MarkSend(a)) ==>
      OnlyPermit(s, Step(s, MarkSend(a)), a) && a in Step(s, MarkSend(a)).permits
      && Step(s, MarkSend(a)).record[a] == s.record[a].(state := PSendIntent)
  {
  }

  /** A pool read again in another epoch ends exactly its direct permits of other epochs. */
  lemma RefreshDoes(s: Slots, p: PoolId, v: PoolView, a: AttemptId)
    requires SlotsOk(s)
    ensures var t := Step(s, Refresh(p, v));
      && t.pools == s.pools[p := v] && t.direct == s.direct && t.idle == s.idle && t.record.Keys == s.record.Keys
      && if p in s.pools && s.pools[p].epoch != v.epoch && a in s.permits && a in s.record && s.record[a].direct
            && s.record[a].pool == p && s.record[a].epoch != v.epoch
         then a !in t.permits
              && t.record[a] == s.record[a].(state := if s.record[a].state == PReserved then PFailedNotSent
                                                      else PFailedRecoverable)
         else (a in t.permits <==> a in s.permits) && (a in s.record ==> t.record[a] == s.record[a])
  {
    assert PermitRow(s, a);
  }

  /** Reconciled durable permits take the state the ledger shows, or go. */
  lemma SyncDoes(s: Slots, states: map<AttemptId, PermitState>, gone: set<AttemptId>, a: AttemptId)
    ensures var t := Step(s, Sync(states, gone));
      && t.pools == s.pools && t.direct == s.direct && t.idle == s.idle && t.record.Keys == s.record.Keys
      && (a in t.permits <==> a in s.permits && a !in gone)
      && (a in s.record ==>
            t.record[a] == if a in states then s.record[a].(state := states[a]) else s.record[a])
  {
  }

  /** The permits held on a pool, those of them that are not interactive, and those of the native pools of a group. */
  function HeldOn(s: Slots, p: PoolId): set<AttemptId> {
    set a | a in s.permits && a in s.record && s.record[a].pool == p
  }

  function BackgroundOn(s: Slots, p: PoolId): set<AttemptId> {
    set a | a in s.permits && a in s.record && s.record[a].pool == p
      && s.record[a].workload in {UserTask, Background, Maintenance}
  }

  function HeldInGroup(s: Slots, g: GroupId): set<AttemptId> {
    set a | a in s.permits && a in s.record && s.record[a].pool in s.pools
            && s.pools[s.record[a].pool].group == g && s.pools[s.record[a].pool].kind != Llm
  }

  /** There is room for one more permit of this class. */
  ghost predicate Room(s: Slots, p: PoolId, c: Class) {
    && p in s.pools && s.pools[p].healthy && s.pools[p].groupHealthy && s.pools[p].target > 0
    && match s.pools[p].kind
       case Llm =>
         |HeldOn(s, p)| < s.pools[p].transportLimit && (c == Qa || |BackgroundOn(s, p)| < s.pools[p].backgroundLimit)
       case Native =>
         |HeldOn(s, p)| < s.pools[p].target && |HeldOn(s, p)| < s.pools[p].hardCeiling
         && |HeldInGroup(s, s.pools[p].group)| < s.pools[p].groupCeiling
  }

  lemma AcquireIsRoom(s: Slots, p: PoolId, c: Class)
    ensures TryAcquire(s, p, c) <==> Room(s, p, c)
  {
    assert HeldOn(s, p) == Active(s, p);
    assert BackgroundOn(s, p) == Working(s, p);
    forall g ensures HeldInGroup(s, g) == GroupActive(s, g) {
    }
  }

  // ---------------------------------------------------------------- queuing

  /** The pool is qualified for what the request asks. */
  ghost predicate Suits(n: Need, o: Offer) {
    && n.kind == o.kind && n.model == o.model && n.profile == o.profile
    && (n.revision == None || n.revision == Some(o.revision)) && n.bound <= o.limit && n.batch <= o.maxBatch
  }

  /** Attempt `ids[k]` is the first of those of the request with the highest generation. */
  ghost predicate IsLatest(s: Slots, ids: seq<AttemptId>, id: Id, k: nat) {
    && k < |ids| && Of(s, ids[k], id)
    && (forall j :: 0 <= j < |ids| && Of(s, ids[j], id) ==> s.record[ids[j]].generation <= s.record[ids[k]].generation)
    && (forall j :: 0 <= j < k && Of(s, ids[j], id) ==> s.record[ids[j]].generation < s.record[ids[k]].generation)
  }

  lemma {:induction false} LatestIs(s: Slots, ids: seq<AttemptId>, id: Id)
    ensures match Latest(s, ids, id)
            case None => forall j :: 0 <= j < |ids| ==> !Of(s, ids[j], id)
            case Some(a) => exists k: nat :: IsLatest(s, ids, id, k) && ids[k] == a
  {
    if ids != [] {
      var init, n := ids[..|ids| - 1], |ids| - 1;
      LatestIs(s, init, id);
      match Latest(s, init, id)
      case None =>
        if Of(s, ids[n], id) {
          assert IsLatest(s, ids, id, n);
        }
      case Some(a) =>
        var k: nat :| IsLatest(s, init, id, k) && init[k] == a;
        if Of(s, ids[n], id) && s.record[ids[n]].generation > s.record[a].generation {
          assert IsLatest(s, ids, id, n);
        } else {
          assert IsLatest(s, ids, id, k);
        }
    }
  }

  /** Its latest attempt is neither failed unsent nor failed recoverably. */
  ghost predicate Unfinished(s: Slots, id: Id) {
    exists k: nat :: IsLatest(s, s.direct, id, k)
                && s.record[s.direct[k]].state !in {PFailedNotSent, PFailedRecoverable}
  }

  lemma LatestUnique(s: Slots, ids: seq<AttemptId>, id: Id, j: nat, k: nat)
    requires IsLatest(s, ids, id, j) && IsLatest(s, ids, id, k)
    ensures j == k
  {
  }

  lemma UnfinishedIs(s: Slots, id: Id)
    ensures var latest := Latest(s, s.direct, id);
      latest.Some? && latest.value in s.record && !Retryable(s.record[latest.value].state) <==> Unfinished(s, id)
  {
    LatestIs(s, s.direct, id);
    if Unfinished(s, id) {
      var j: nat :| IsLatest(s, s.direct, id, j)
        && s.record[s.direct[j]].state !in {PFailedNotSent, PFailedRecoverable};
      var latest := Latest(s, s.direct, id);
      assert latest.Some?;
      var k: nat :| IsLatest(s, s.direct, id, k) && s.direct[k] == latest.value;
      LatestUnique(s, s.direct, id, j, k);
    }
  }

  /** The identity belongs to another request or owner, or its request was accepted already. */
  ghost predicate Conflicts(d: Desk, req: Request, owner: OwnerId) {
    && req.id in d.known
    && (d.known[req.id].request != req || d.known[req.id].owner != owner
        || (req.id !in d.lines.waiters && Unfinished(d.slots, req.id)))
  }

  /** The waiting line of the pool or of the tenant is full, counted afresh. */
  ghost predicate Crowded(d: Desk, req: Request, p: PoolId) {
    |InPool(d.lines.waiters, p)| >= d.endpointLimit || |OfTenant(d.lines.waiters, p, req.tenant)| >= d.tenantLimit
  }

  /** The request joins the line of the pool, and its identity is known. */
  ghost predicate JoinsLine(d: Desk, e: Desk, req: Request, p: PoolId, owner: OwnerId, now: Time) {
    && e == d.(lines := e.lines, known := e.known) && e.known == d.known[req.id := Known(req, owner, now + d.ttl)]
    && e.lines.waiters ==
         d.lines.waiters[req.id := Waiter(req.tenant, p, owner, req.workload, req.deadline, now, true)]
    && (forall r :: r != p ==> Queue(e.lines, r) == Queue(d.lines, r))
    && forall x :: x in Queue(e.lines, p) <==> x in Queue(d.lines, p) || x == Entry(Rank(req.workload), now, req.id)
  }

  /** Every answer of `_enqueue`, in the order in which it is decided. */
  lemma EnqueueDoes(d: Desk, req: Request, p: PoolId, owner: OwnerId, now: Time)
    requires DeskOk(d)
    ensures var (e, r) := Enqueue(d, req, p, owner, now);
      if p !in d.slots.pools then e == d && r == Denial(true)
      else if Conflicts(d, req, owner) then e == d && r == Clash
      else if req.id in d.known && req.id in d.lines.waiters then e == d && r == Value(d.lines.waiters[req.id].queuedAt)
      else if req.deadline <= now || Crowded(d, req, p) then e == d && r == Denial(true)
      else if !Suits(req.need, d.slots.pools[p].offer) then e == d && r == Denial(false)
      else r == Value(now) && JoinsLine(d, e, req, p, owner, now)
  {
    UnfinishedIs(d.slots, req.id);
    assert Sorted(Queue(d.lines, p));
    PushSorted(Queue(d.lines, p), EntryOf(req.id, WaiterOf(req, p, owner, now)));
  }

  // ---------------------------------------------------------------- grants

  /** The waiter stands before everyone else who is alive in the line of its pool. */
  ghost predicate Leads(l: Lines, p: PoolId, now: Time, id: Id) {
    Alive(l, p, now, id) && forall j :: Alive(l, p, now, j) ==> Before(l, id, j)
  }

  lemma FirstLeads(l: Lines, p: PoolId, now: Time, id: Id)
    requires WellFormed(l) && Honest(l, now)
    ensures First(l, p, now).1 == Some(id) <==> Leads(l, p, now, id)
  {
    FirstIsLeast(l, p, now);
  }

  /** Which generation the next attempt would be, if the request may have one now. */
  ghost predicate NextIs(s: Slots, req: Request, p: PoolId, owner: OwnerId, previous: Option<AttemptId>,
                         generation: nat) {
    && p in s.pools
    && match previous
       case None => generation == 0 && (req.expectedEpoch == None || req.expectedEpoch == Some(s.pools[p].epoch))
       case Some(a) =>
         && a in s.direct && a in s.record
         && var t := s.record[a];
            && t.request == Some(req) && t.owner == owner && t.pool == p && generation == t.generation + 1 <= 2
            && (t.state == PFailedNotSent
                || (t.state == PFailedRecoverable && (t.epoch != s.pools[p].epoch || t.idleVerified)))
  }

  lemma NextGenerationIs(s: Slots, req: Request, p: PoolId, owner: OwnerId, previous: Option<AttemptId>,
                         generation: nat)
    requires p in s.pools
    ensures NextGeneration(s, req, p, owner, previous) == Value(Some(generation))
      <==> NextIs(s, req, p, owner, previous, generation)
  {
  }

  /** Everything a reservation asks for. */
  ghost predicate Grants(d: Desk, req: Request, p: PoolId, owner: OwnerId, previous: Option<AttemptId>, generation: nat,
                   now: Time) {
    && p in d.slots.pools && req.id in d.lines.waiters && d.lines.waiters[req.id].owner == owner
    && req.deadline > now && d.controlReady && p in d.ready && d.ready[p] <= now
    && Suits(req.need, d.slots.pools[p].offer) && NextIs(d.slots, req, p, owner, previous, generation)
    && Leads(d.lines, p, now, req.id) && Room(d.slots, p, req.workload)
  }

  /** The new permit: reserved, of the pool's epoch, and held. */
  ghost predicate Issued(d: Desk, e: Desk, req: Request, p: PoolId, owner: OwnerId, generation: nat, id: AttemptId) {
    && p in d.slots.pools && id in e.slots.record && id in e.slots.permits
    && e.slots.record[id]
      == Permit(Some(req), p, owner, req.workload, d.slots.pools[p].epoch, true, generation, PReserved,
                                    None, false)
    && e.slots.direct == d.slots.direct + [id] && e.slots.permits == d.slots.permits + {id}
    && e.slots.record.Keys == d.slots.record.Keys + {id}
    && (forall b :: b in d.slots.record && b != id ==> e.slots.record[b] == d.slots.record[b])
    && e.slots.pools == d.slots.pools && e.slots.idle == d.slots.idle
    && req.id !in e.lines.waiters && e.known == d.known
  }

  lemma GrantMeets(d: Desk, req: Request, p: PoolId, owner: OwnerId, previous: Option<AttemptId>, id: AttemptId,
                   now: Time)
    returns (generation: nat)
    requires DeskOk(d) && Honest(d.lines, now)
    requires var r := Reserve(d, req, p, owner, previous, id, now).1; r.Value? && r.value.Some?
    ensures Grants(d, req, p, owner, previous, generation, now)
  {
    FirstLeads(d.lines, p, now, req.id);
    AcquireIsRoom(d.slots, p, req.workload);
    generation := NextGeneration(d.slots, req, p, owner, previous).value.value;
    NextGenerationIs(d.slots, req, p, owner, previous, generation);
  }

  lemma HeadIssued(d: Desk, req: Request, p: PoolId, owner: OwnerId, generation: nat, id: AttemptId, now: Time)
    requires WellFormed(d.lines) && p in d.slots.pools && id !in d.slots.record
    requires First(d.lines, p, now).1 == Some(req.id) && TryAcquire(d.slots, p, req.workload)
    ensures var (e, r) := GrantHead(d, req, p, owner, generation, id, now);
      r == Value(Some(id)) && Issued(d, e, req, p, owner, generation, id)
  {
  }

  lemma MeetsGranted(d: Desk, req: Request, p: PoolId, owner: OwnerId, previous: Option<AttemptId>, generation: nat,
                     id: AttemptId, now: Time)
    requires DeskOk(d) && Honest(d.lines, now) && id !in d.slots.record
    requires Grants(d, req, p, owner, previous, generation, now)
    ensures var (e, r) := Reserve(d, req, p, owner, previous, id, now);
      r == Value(Some(id)) && Issued(d, e, req, p, owner, generation, id)
  {
    FirstLeads(d.lines, p, now, req.id);
    AcquireIsRoom(d.slots, p, req.workload);
    NextGenerationIs(d.slots, req, p, owner, previous, generation);
    HeadIssued(d, req, p, owner, generation, id, now);
  }

  lemma RefusalKeeps(d: Desk, req: Request, p: PoolId, owner: OwnerId, previous: Option<AttemptId>, id: AttemptId,
                     now: Time)
    ensures var (e, r) := Reserve(d, req, p, owner, previous, id, now);
      !(r.Value? && r.value.Some?) ==> e.slots == d.slots && e.known == d.known
  {
  }

  /**
   A reservation is granted if and only if its request waits at the head of an open
   line, may have another attempt, and there is room; it then leaves the line with
   a permit of its own.
   */
  lemma ReserveIff(d: Desk, req: Request, p: PoolId, owner: OwnerId, previous: Option<AttemptId>, id: AttemptId,
                   now: Time)
    requires DeskOk(d) && Honest(d.lines, now) && id !in d.slots.record
    ensures var (e, r) := Reserve(d, req, p, owner, previous, id, now);
      && (r.Value? && r.value.Some? <==> exists generation :: Grants(d, req, p, owner, previous, generation, now))
      && (forall generation :: Grants(d, req, p, owner, previous, generation, now) ==>
            r == Value(Some(id)) && Issued(d, e, req, p, owner, generation, id))
      && (!(r.Value? && r.value.Some?) ==> e.slots == d.slots && e.known == d.known)
  {
    RefusalKeeps(d, req, p, owner, previous, id, now);
    var r := Reserve(d, req, p, owner, previous, id, now).1;
    if r.Value? && r.value.Some? {
      var generation := GrantMeets(d, req, p, owner, previous, id, now);
    }
    forall generation | Grants(d, req, p, owner, previous, generation, now)
      ensures r == Value(Some(id))
              && Issued(d, Reserve(d, req, p, owner, previous, id, now).0, req, p, owner, generation, id)
    {
      MeetsGranted(d, req, p, owner, previous, generation, id, now);
    }
  }

  /** A request is queued, or waits already. */
  ghost predicate Accepted(d: Desk, req: Request, p: PoolId, owner: OwnerId, now: Time) {
    && p in d.slots.pools && !Conflicts(d, req, owner)
    && ((req.id in d.known && req.id in d.lines.waiters)
        || (req.deadline > now && !Crowded(d, req, p) && Suits(req.need, d.slots.pools[p].offer)))
  }

  /** The pool is open and serving, and the request still wants it. */
  ghost predicate Serving(d: Desk, req: Request, p: PoolId, now: Time) {
    && p in d.slots.pools && d.controlReady && p in d.ready && d.ready[p] <= now
    && d.slots.pools[p].healthy && d.slots.pools[p].groupHealthy && d.slots.pools[p].target > 0
    && (req.dispatchBefore.Some? ==> now < req.dispatchBefore.value)
    && (req.expectedEpoch == None || req.expectedEpoch == Some(d.slots.pools[p].epoch))
  }

  /** No leftover entry of the request would be taken for it under a better class. */
  ghost predicate JoinsClean(d: Desk, req: Request, p: PoolId, owner: OwnerId, now: Time) {
    req.id !in d.lines.waiters ==> Undemoted(d.lines, req.id, WaiterOf(req, p, owner, now), now)
  }

  lemma QueuedHonest(d: Desk, req: Request, p: PoolId, owner: OwnerId, now: Time)
    requires DeskOk(d) && DirectId(d, req.id) && Honest(d.lines, now) && JoinsClean(d, req, p, owner, now)
    ensures Honest(Enqueue(d, req, p, owner, now).0.lines, now)
  {
    assert req.id in d.lines.waiters ==> WaiterRow(d, req.id);
    EnqueueShape(d, req, p, owner, now);
    if req.id !in d.lines.waiters {
      JoinHonest(d.lines, req.id, WaiterOf(req, p, owner, now), now);
    }
  }

  /** What an immediate attempt comes to once its request is queued. */
  lemma TryReserveIs(d: Desk, req: Request, p: PoolId, owner: OwnerId, id: AttemptId, now: Time)
    ensures var r := TryReserve(d, req, p, owner, id, now);
      var (queued, q) := Enqueue(d, req, p, owner, now);
      var inner := Reserve(queued, req, p, owner, None, id, now);
      if Serving(d, req, p, now) && q.Value? && inner.1.Value? && inner.1.value.Some?
      then r == (inner.0, Value(Given(inner.1.value.value)))
      else !(r.1.Value? && r.1.value.Given?)
  {
  }

  /** An immediate attempt is granted if and only if the pool serves it and, once queued, it would be granted. */
  lemma TryReserveIff(d: Desk, req: Request, p: PoolId, owner: OwnerId, id: AttemptId, now: Time)
    requires DeskOk(d) && DirectId(d, req.id) && Honest(d.lines, now) && JoinsClean(d, req, p, owner, now)
    requires id !in d.slots.record
    ensures var (e, r) := TryReserve(d, req, p, owner, id, now);
      var queued := Enqueue(d, req, p, owner, now).0;
      && (r.Value? && r.value.Given? <==>
            Serving(d, req, p, now) && Accepted(d, req, p, owner, now) && Grants(queued, req, p, owner, None, 0, now))
      && (r.Value? && r.value.Given? ==> r.value.attempt == id && Issued(queued, e, req, p, owner, 0, id))
  {
    var queued := Enqueue(d, req, p, owner, now).0;
    EnqueueAccepts(d, req, p, owner, now);
    EnqueueOk(d, req, p, owner, now);
    QueuedHonest(d, req, p, owner, now);
    ReserveIff(queued, req, p, owner, None, id, now);
    OnlyFirstGeneration(queued, req, p, owner, now);
    TryReserveIs(d, req, p, owner, id, now);
  }

  lemma EnqueueAccepts(d: Desk, req: Request, p: PoolId, owner: OwnerId, now: Time)
    requires DeskOk(d)
    ensures Enqueue(d, req, p, owner, now).1.Value? <==> Accepted(d, req, p, owner, now)
  {
    EnqueueDoes(d, req, p, owner, now);
  }

  lemma OnlyFirstGeneration(d: Desk, req: Request, p: PoolId, owner: OwnerId, now: Time)
    ensures (exists generation :: Grants(d, req, p, owner, None, generation, now))
      <==> Grants(d, req, p, owner, None, 0, now)
  {
  }

  /** Why an immediate attempt is refused before it is queued. */
  lemma TryReserveCodes(d: Desk, req: Request, p: PoolId, owner: OwnerId, id: AttemptId, now: Time)
    ensures var (e, r) := TryReserve(d, req, p, owner, id, now);
      && (r == Value(Refused(ModelNotReady)) || r == Value(Refused(DispatchCutoff)) <==> !Serving(d, req, p, now))
      && (!Serving(d, req, p, now) ==> e == d)
      && (r == Value(Refused(DispatchCutoff)) ==> req.dispatchBefore.Some? && req.dispatchBefore.value <= now)
  {
  }

  // ---------------------------------------------------------------- readiness

  /** A pool found healthy in a new epoch no longer waits for a former process. */
  lemma RereadDoes(d: Desk, p: PoolId, view: PoolView, now: Time)
    ensures var e := Reread(d, p, view, now);
      && e == d.(slots := e.slots, ready := e.ready, dirty := e.dirty)
      && (forall q :: q != p ==> (q in e.dirty <==> q in d.dirty))
      && (forall q :: q != p ==> (q in e.ready <==> q in d.ready))
      && (forall q :: q != p && q in d.ready ==> e.ready[q] == d.ready[q])
      && if p in d.slots.pools && d.slots.pools[p].epoch != view.epoch && view.healthy && p in d.dirty
         then p !in e.dirty && p in e.ready && e.ready[p] == now
         else e.dirty == d.dirty && e.ready == d.ready
  {
  }

  /** After a start each pool is ready once its grace time, or the work of a former process, is over. */
  lemma StartedDoes(d: Desk, former: map<PoolId, Time>, grace: nat, now: Time, p: PoolId)
    requires p in d.slots.pools
    ensures var e := TimedOut(Started(d, former, grace, now), now);
      && p in e.ready
      && (p in former ==>
            e.ready[p] >= now && e.ready[p] >= former[p] && (e.ready[p] == now || e.ready[p] == former[p]))
      && (p !in former ==> e.ready[p] == now + grace)
      && (p in e.dirty <==> p in former && former[p] > now)
  {
  }
}
