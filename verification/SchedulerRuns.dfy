/** Whole runs of the in-memory scheduler: any turns, in any order, on a clock that does not go back. */
module SchedulerRuns {
  // A run starts empty but for the permits a restart hydrated.  The last sections
  // say when `_first` can be trusted over a run, and show a run in which it cannot.

  import opened Ledger
  import opened MemoryScheduler
  import opened Permits
  import Effects = SchedulerEffects
  import opened WaitQueue

  /**
   The turns of the scheduler.  `Slot` is any change of permits but a grant or a
   refresh; `Drains`, `TimesOut` and `Controls` change which pools are open.
   */
  datatype Turn =
    | Enqueues(req: Request, pool: PoolId, owner: OwnerId)
    | Reserves(req: Request, pool: PoolId, owner: OwnerId, previous: Option<AttemptId>, id: AttemptId)
    | Tries(req: Request, pool: PoolId, owner: OwnerId, id: AttemptId)
    | Leaves(waiter: Id)
    | Waits(waiter: Id, entry: Waiter)
    | GrantsDurable(waiter: Id)
    | Slot(step: SlotStep)
    | Forgets(waiter: Id)
    | Refreshes(pool: PoolId, view: PoolView)
    | Drains(pool: PoolId)
    | TimesOut
    | Controls(ok: bool)

  /** Fresh attempt identities, durable waiters apart from direct ones, and identities kept until they expire. */
  predicate Possible(d: Desk, turn: Turn, now: Time) {
    match turn
    case Enqueues(req, _, _) => DirectId(d, req.id)
    case Reserves(_, _, _, _, id) => id !in d.slots.record
    case Tries(req, _, _, id) => DirectId(d, req.id) && id !in d.slots.record
    case Waits(id, w) => id !in d.lines.waiters && !w.direct
    case GrantsDurable(id) =>
      && id in d.lines.waiters && !d.lines.waiters[id].direct && id !in d.slots.record
      && d.lines.waiters[id].pool in d.slots.pools
    case Slot(step) =>
      && !step.Grant? && !step.Refresh? && Can(d.slots, step)
      && (step.Lose? ==> step.now == now) && (step.ProbeEnds? ==> step.probe.started <= now)
    case Forgets(id) => id !in d.lines.waiters && id in d.known && d.known[id].expires <= now
    case _ => true
  }

  function DurablePermit(d: Desk, w: Waiter): Permit
    requires w.pool in d.slots.pools
  {
    Permit(None, w.pool, w.owner, w.workload, d.slots.pools[w.pool].epoch, false, 0, PReserved, None, false)
  }

  /** The grant of `durable`: the head of the line, if capacity allows. */
  function GrantDurable(d: Desk, id: Id, now: Time): Desk
    requires id in d.lines.waiters && d.lines.waiters[id].pool in d.slots.pools
  {
    var w := d.lines.waiters[id];
    var (lines, first) := First(d.lines, w.pool, now);
    if !Open(d, w.pool, now) then d
    else if first != Some(id) || !TryAcquire(d.slots, w.pool, w.workload) then d.(lines := lines)
    else d.(lines := Leave(lines, id), slots := Step(d.slots, Grant(id, DurablePermit(d, w))))
  }

  /** A durable waiter gets its permit if and only if it leads the line of an open pool and there is room. */
  lemma GrantDurableIff(d: Desk, id: Id, now: Time)
    requires DeskOk(d) && Honest(d.lines, now) && Possible(d, GrantsDurable(id), now)
    ensures var w, e := d.lines.waiters[id], GrantDurable(d, id, now);
      && (id in e.slots.record <==>
            d.controlReady && w.pool in d.ready && d.ready[w.pool] <= now
            && Effects.Leads(d.lines, w.pool, now, id) && Effects.Room(d.slots, w.pool, w.workload))
      && e.known == d.known
      && (if id in e.slots.record
          then id !in e.lines.waiters && e.slots.permits == d.slots.permits + {id} && e.slots.direct == d.slots.direct
               && e.slots.record[id].pool == w.pool && e.slots.record[id].owner == w.owner
               && e.slots.record[id].workload == w.workload && e.slots.record[id].state == PReserved
               && !e.slots.record[id].direct && e.slots.record[id].epoch == d.slots.pools[w.pool].epoch
               && (forall b :: b in d.slots.record ==> b in e.slots.record && e.slots.record[b] == d.slots.record[b])
          else e.slots == d.slots)
  {
    var w := d.lines.waiters[id];
    Effects.FirstLeads(d.lines, w.pool, now, id);
    Effects.AcquireIsRoom(d.slots, w.pool, w.workload);
  }

  function Turned(d: Desk, turn: Turn, now: Time): Desk
    requires Possible(d, turn, now)
  {
    match turn
    case Enqueues(req, p, owner) => Enqueue(d, req, p, owner, now).0
    case Reserves(req, p, owner, previous, id) => Reserve(d, req, p, owner, previous, id, now).0
    case Tries(req, p, owner, id) => TryReserve(d, req, p, owner, id, now).0
    case Leaves(id) => d.(lines := Leave(d.lines, id))
    case Waits(id, w) => d.(lines := Join(d.lines, id, w))
    case GrantsDurable(id) => GrantDurable(d, id, now)
    case Slot(step) => d.(slots := Step(d.slots, step))
    case Forgets(id) => d.(known := d.known - {id})
    case Refreshes(p, view) => Reread(d, p, view, now)
    case Drains(p) => Drained(d, p, now)
    case TimesOut => TimedOut(d, now)
    case Controls(ok) => d.(controlReady := ok)
  }

  predicate DeskTaken(run: seq<Desk>, turns: seq<Turn>, times: seq<Time>, k: nat) {
    && k < |turns| && k < |times| && k + 1 < |run|
    && Possible(run[k], turns[k], times[k]) && run[k + 1] == Turned(run[k], turns[k], times[k])
  }

  predicate IsProbe(turn: Turn) {
    turn.Slot? && turn.step.ProbeEnds?
  }

  ghost predicate IsDeskRun(run: seq<Desk>, turns: seq<Turn>, times: seq<Time>) {
    && |run| == |turns| + 1 == |times| + 1
    && run[0].lines == Lines(map[], map[], map[], map[]) && Booted(run[0].slots)
    && (forall k: nat {:trigger DeskTaken(run, turns, times, k)} :: k < |turns| ==> DeskTaken(run, turns, times, k))
    && (forall j, k :: 0 <= j < k < |times| ==> times[j] <= times[k])
    // One task probes, on one clock.
    && (forall j, k :: 0 <= j < k < |turns| && IsProbe(turns[j]) && IsProbe(turns[k])
          ==> turns[j].step.probe.started <= turns[k].step.probe.started)
  }

  // ---------------------------------------------------------------- what every run keeps

  lemma WaitsOk(d: Desk, id: Id, w: Waiter)
    requires DeskOk(d) && id !in d.lines.waiters && !w.direct
    ensures DeskOk(d.(lines := Join(d.lines, id, w)))
  {
    var e := d.(lines := Join(d.lines, id, w));
    JoinWellFormed(d.lines, id, w);
    forall j | j in e.lines.waiters ensures WaiterRow(e, j) {
      assert j != id ==> WaiterRow(d, j);
    }
  }

  lemma GrantDurableOk(d: Desk, id: Id, now: Time)
    requires DeskOk(d) && Possible(d, GrantsDurable(id), now)
    ensures DeskOk(GrantDurable(d, id, now))
  {
    var w := d.lines.waiters[id];
    var (lines, first) := First(d.lines, w.pool, now);
    FirstEvicts(d.lines, w.pool, now);
    EvictedWithinLimits(d, lines);
    LeaveWellFormed(lines, id);
    EvictedWithinLimits(d.(lines := lines), Leave(lines, id));
    if TryAcquire(d.slots, w.pool, w.workload) {
      StepOk(d.slots, Grant(id, DurablePermit(d, w)));
      SlotsReplaced(d.(lines := Leave(lines, id)), Step(d.slots, Grant(id, DurablePermit(d, w))));
    }
  }

  lemma ForgetsOk(d: Desk, id: Id)
    requires DeskOk(d) && id !in d.lines.waiters
    ensures DeskOk(d.(known := d.known - {id}))
  {
    var e := d.(known := d.known - {id});
    forall j | j in e.lines.waiters ensures WaiterRow(e, j) {
      assert WaiterRow(d, j);
    }
  }

  /** Every turn keeps heaps, counters, limits, identities and permits in order. */
  lemma TurnOk(d: Desk, turn: Turn, now: Time, e: Desk)
    requires DeskOk(d) && Possible(d, turn, now) && e == Turned(d, turn, now)
    ensures DeskOk(e)
  {
    match turn
    case Enqueues(req, p, owner) => EnqueueOk(d, req, p, owner, now);
    case Reserves(req, p, owner, previous, id) => ReserveOk(d, req, p, owner, previous, id, now);
    case Tries(req, p, owner, id) => TryReserveOk(d, req, p, owner, id, now);
    case Leaves(id) =>
      LeaveWellFormed(d.lines, id);
      EvictedWithinLimits(d, Leave(d.lines, id));
    case Waits(id, w) => WaitsOk(d, id, w);
    case GrantsDurable(id) => GrantDurableOk(d, id, now);
    case Slot(step) =>
      StepOk(d.slots, step);
      SlotsReplaced(d, e.slots);
    case Forgets(id) => ForgetsOk(d, id);
    case Refreshes(p, view) =>
      StepOk(d.slots, Refresh(p, view));
      SlotsReplaced(d, e.slots);
      ReadinessReplaced(d.(slots := e.slots), e);
    case _ => ReadinessReplaced(d, e);
  }

  lemma ReadinessReplaced(d: Desk, e: Desk)
    requires DeskOk(d) && e == d.(ready := e.ready, dirty := e.dirty, controlReady := e.controlReady)
    ensures DeskOk(e)
  {
    forall j | j in e.lines.waiters ensures WaiterRow(e, j) {
      assert WaiterRow(d, j);
    }
  }

  /** In every run the cached counters equal recounts, the lines are within their limits, and slots follow states. */
  lemma {:induction false} DeskRunOk(run: seq<Desk>, turns: seq<Turn>, times: seq<Time>, k: nat)
    requires IsDeskRun(run, turns, times) && k < |run|
    ensures DeskOk(run[k])
    decreases k
  {
    if k > 0 {
      DeskRunOk(run, turns, times, k - 1);
      assert DeskTaken(run, turns, times, k - 1);
      TurnOk(run[k - 1], turns[k - 1], times[k - 1], run[k]);
    } else {
      var l := run[0].lines;
      assert forall p :: InPool(l.waiters, p) == {};
      assert forall p, t :: OfTenant(l.waiters, p, t) == {};
    }
  }

  /** The waiting lines of a run, counted afresh, never exceed what the configuration allows. */
  lemma LinesWithinLimits(run: seq<Desk>, turns: seq<Turn>, times: seq<Time>, k: nat, p: PoolId, t: TenantId)
    requires IsDeskRun(run, turns, times) && k < |run|
    ensures var d := run[k];
      && |InPool(d.lines.waiters, p)| == Count(d.lines.queued, p) <= d.endpointLimit
      && |OfTenant(d.lines.waiters, p, t)| == Count(d.lines.byTenant, (p, t)) <= d.tenantLimit
  {
    DeskRunOk(run, turns, times, k);
  }

  // ---------------------------------------------------------------- runs of permits

  /** The step of the permits a turn comes to; forgetting no streak changes nothing. */
  function StepOf(d: Desk, turn: Turn, now: Time): SlotStep
    requires Possible(d, turn, now)
  {
    var e := Turned(d, turn, now).slots;
    match turn
    case Slot(step) => step
    case Refreshes(p, view) => Refresh(p, view)
    case Reserves(_, _, _, _, id) => if id in e.record then Grant(id, e.record[id]) else Forget({})
    case Tries(_, _, _, id) => if id in e.record then Grant(id, e.record[id]) else Forget({})
    case GrantsDurable(id) => if id in e.record then Grant(id, e.record[id]) else Forget({})
    case _ => Forget({})
  }

  lemma ForgetNothing(s: Slots)
    ensures Step(s, Forget({})) == s
  {
    assert s.idle - {} == s.idle;
  }

  lemma ReserveIsSlotStep(d: Desk, req: Request, p: PoolId, owner: OwnerId, previous: Option<AttemptId>, id: AttemptId,
                          now: Time)
    requires WellFormed(d.lines) && id !in d.slots.record
    ensures var e := Reserve(d, req, p, owner, previous, id, now).0.slots;
      if id in e.record then Can(d.slots, Grant(id, e.record[id])) && e == Step(d.slots, Grant(id, e.record[id]))
      else e == d.slots
  {
    if Reserve(d, req, p, owner, previous, id, now).1 == Value(Some(id)) {
      ReserveGrants(d, req, p, owner, previous, id, now);
    }
  }

  lemma TrySlots(d: Desk, req: Request, p: PoolId, owner: OwnerId, id: AttemptId, now: Time)
    ensures var queued, e := Enqueue(d, req, p, owner, now).0, TryReserve(d, req, p, owner, id, now).0;
      && queued.slots == d.slots
      && (e.slots == d.slots || e.slots == Reserve(queued, req, p, owner, None, id, now).0.slots)
  {
  }

  lemma TryIsSlotStep(d: Desk, req: Request, p: PoolId, owner: OwnerId, id: AttemptId, now: Time)
    requires DeskOk(d) && DirectId(d, req.id) && id !in d.slots.record
    ensures var e := TryReserve(d, req, p, owner, id, now).0.slots;
      if id in e.record then Can(d.slots, Grant(id, e.record[id])) && e == Step(d.slots, Grant(id, e.record[id]))
      else e == d.slots
  {
    TrySlots(d, req, p, owner, id, now);
    EnqueueOk(d, req, p, owner, now);
    ReserveIsSlotStep(Enqueue(d, req, p, owner, now).0, req, p, owner, None, id, now);
  }

  lemma GrantDurableIsSlotStep(d: Desk, id: Id, now: Time)
    requires Possible(d, GrantsDurable(id), now)
    ensures var e := GrantDurable(d, id, now).slots;
      if id in e.record then Can(d.slots, Grant(id, e.record[id])) && e == Step(d.slots, Grant(id, e.record[id]))
      else e == d.slots
  {
  }

  /** Every turn changes permits by one step of module Permits or not at all. */
  lemma TurnIsSlotStep(d: Desk, turn: Turn, now: Time)
    requires DeskOk(d) && Possible(d, turn, now)
    ensures Can(d.slots, StepOf(d, turn, now)) && Turned(d, turn, now).slots == Step(d.slots, StepOf(d, turn, now))
  {
    ForgetNothing(d.slots);
    match turn
    case Reserves(req, p, owner, previous, id) => ReserveIsSlotStep(d, req, p, owner, previous, id, now);
    case Tries(req, p, owner, id) => TryIsSlotStep(d, req, p, owner, id, now);
    case GrantsDurable(id) => GrantDurableIsSlotStep(d, id, now);
    case _ =>
  }

  function SlotsOf(run: seq<Desk>): seq<Slots> {
    seq(|run|, k requires 0 <= k < |run| => run[k].slots)
  }

  function StepsOf(run: seq<Desk>, turns: seq<Turn>, times: seq<Time>): seq<SlotStep>
    requires forall k: nat {:trigger DeskTaken(run, turns, times, k)} :: k < |turns| ==> DeskTaken(run, turns, times, k)
  {
    seq(|turns|, k requires 0 <= k < |turns| =>
      assert DeskTaken(run, turns, times, k); StepOf(run[k], turns[k], times[k]))
  }

  /** The permits of a run are a run of permits. */
  lemma RunIsSlotRun(run: seq<Desk>, turns: seq<Turn>, times: seq<Time>)
    requires IsDeskRun(run, turns, times)
    ensures IsSlotRun(SlotsOf(run), StepsOf(run, turns, times))
  {
    var slots, steps := SlotsOf(run), StepsOf(run, turns, times);
    forall k: nat | k < |steps| ensures Taken(slots, steps, k) {
      DeskRunOk(run, turns, times, k);
      assert DeskTaken(run, turns, times, k);
      TurnIsSlotStep(run[k], turns[k], times[k]);
    }
    forall k: nat | k < |steps| && (steps[k].ProbeEnds? || steps[k].Lose?)
      ensures turns[k].Slot? && steps[k] == turns[k].step && Possible(run[k], turns[k], times[k])
    {
      assert DeskTaken(run, turns, times, k);
    }
    forall j, k | 0 <= j < k < |steps| && steps[j].ProbeEnds? && steps[k].Lose?
      ensures steps[j].probe.started <= steps[k].now
    {
      assert Possible(run[j], turns[j], times[j]) && Possible(run[k], turns[k], times[k]);
    }
  }

  /**
   What the permits of a run are worth: a pool never holds more than the highest
   limit it had or a restart hydrated, while pools change health, epoch and target.
   */
  lemma RunCapacity(run: seq<Desk>, turns: seq<Turn>, times: seq<Time>, k: nat, p: PoolId, limit: nat)
    requires IsDeskRun(run, turns, times) && k < |run| && LimitedTo(SlotsOf(run), p, limit, k)
    ensures |Active(run[k].slots, p)| <= Max(limit, |Active(run[0].slots, p)|)
  {
    RunIsSlotRun(run, turns, times);
    CapacityHolds(SlotsOf(run), StepsOf(run, turns, times), k, p, limit);
  }

  lemma RunBackground(run: seq<Desk>, turns: seq<Turn>, times: seq<Time>, k: nat, p: PoolId, limit: nat)
    requires IsDeskRun(run, turns, times) && k < |run| && BackgroundLimitedTo(SlotsOf(run), p, limit, k)
    ensures |Working(run[k].slots, p)| <= Max(limit, |Working(run[0].slots, p)|)
  {
    RunIsSlotRun(run, turns, times);
    BackgroundHolds(SlotsOf(run), StepsOf(run, turns, times), k, p, limit);
  }

  lemma RunGroupCapacity(run: seq<Desk>, turns: seq<Turn>, times: seq<Time>, k: nat, g: GroupId, ceiling: nat)
    requires IsDeskRun(run, turns, times) && k < |run| && GroupLimitedTo(SlotsOf(run), g, ceiling, k)
    ensures |GroupActive(run[k].slots, g)| <= Max(ceiling, |GroupActive(run[0].slots, g)|)
  {
    RunIsSlotRun(run, turns, times);
    GroupCapacityHolds(SlotsOf(run), StepsOf(run, turns, times), k, g, ceiling);
  }

  /** No turn takes the slot of a sent direct attempt without the evidence that module Permits lists. */
  lemma RunSentKeepsSlot(run: seq<Desk>, turns: seq<Turn>, times: seq<Time>, k: nat, a: AttemptId)
    requires IsDeskRun(run, turns, times) && k < |turns|
    requires a in run[k].slots.permits && a in run[k].slots.direct && a in run[k].slots.record
    requires run[k].slots.record[a].state != PReserved
    ensures a in run[k + 1].slots.permits
      || (turns[k].Slot? && turns[k].step.Finish? && turns[k].step.a == a)
      || (turns[k].Refreshes? && turns[k].pool == run[k].slots.record[a].pool
          && turns[k].view.epoch != run[k].slots.record[a].epoch)
      || TwoProbes(StepsOf(run, turns, times), k, a, run[k].slots.record[a])
  {
    RunIsSlotRun(run, turns, times);
    assert DeskTaken(run, turns, times, k);
    SentKeepsSlot(SlotsOf(run), StepsOf(run, turns, times), k, a);
  }

  /** Two probes in a row settle, in every run of the scheduler. */
  lemma RunTwoProbesSettle(run: seq<Desk>, turns: seq<Turn>, times: seq<Time>, j: nat, k: nat, a: AttemptId)
    requires IsDeskRun(run, turns, times) && k < |turns| && BothFindIdle(StepsOf(run, turns, times), j, k, a)
    requires Begins(run[j].slots, StepsOf(run, turns, times)[j].probe)
    requires a in run[k].slots.permits && a in run[k].slots.direct && a in run[k].slots.record
    requires var t, x := run[k].slots.record[a], StepsOf(run, turns, times)[j].probe;
      t.state == PUnknown && t.unknownAt.Some? && t.unknownAt.value < x.started && t.pool == x.pool
        && t.epoch == x.epoch
    ensures a !in run[k + 1].slots.permits && a in run[k + 1].slots.record
    ensures run[k + 1].slots.record[a].state == PFailedRecoverable && run[k + 1].slots.record[a].idleVerified
  {
    RunIsSlotRun(run, turns, times);
    TwoProbesSettle(SlotsOf(run), StepsOf(run, turns, times), j, k, a);
  }

  // ---------------------------------------------------------------- which turns keep entries honest

  /** A waiter that stays must not find a leftover entry of its own that promises a better class. */
  predicate Clean(d: Desk, turn: Turn, now: Time) {
    match turn
    case Enqueues(req, p, owner) =>
      Enqueue(d, req, p, owner, now).0 != d ==> Undemoted(d.lines, req.id, WaiterOf(req, p, owner, now), now)
    case Waits(id, w) => Undemoted(d.lines, id, w, now)
    case _ => true
  }

  lemma GrantHeadFewer(d: Desk, req: Request, p: PoolId, owner: OwnerId, generation: nat, id: AttemptId, now: Time)
    requires WellFormed(d.lines) && p in d.slots.pools
    ensures Fewer(d.lines, GrantHead(d, req, p, owner, generation, id, now).0.lines)
  {
    FirstFewer(d.lines, p, now);
    LeaveFewer(First(d.lines, p, now).0, req.id);
  }

  lemma ReserveFewer(d: Desk, req: Request, p: PoolId, owner: OwnerId, previous: Option<AttemptId>, id: AttemptId,
                     now: Time)
    requires WellFormed(d.lines)
    ensures Fewer(d.lines, Reserve(d, req, p, owner, previous, id, now).0.lines)
  {
    if p in d.slots.pools {
      forall generation: nat ensures Fewer(d.lines, GrantHead(d, req, p, owner, generation, id, now).0.lines) {
        GrantHeadFewer(d, req, p, owner, generation, id, now);
      }
    }
  }

  lemma GrantDurableFewer(d: Desk, id: Id, now: Time)
    requires WellFormed(d.lines) && Possible(d, GrantsDurable(id), now)
    ensures Fewer(d.lines, GrantDurable(d, id, now).lines)
  {
    var p := d.lines.waiters[id].pool;
    FirstFewer(d.lines, p, now);
    LeaveFewer(First(d.lines, p, now).0, id);
  }

  lemma QueueAndReserveFewer(d: Desk, req: Request, p: PoolId, owner: OwnerId, id: AttemptId, now: Time)
    requires DeskOk(d) && Possible(d, Tries(req, p, owner, id), now)
    ensures var (tried, r) := QueueAndReserve(d, req, p, owner, id, now);
      && Fewer(Enqueue(d, req, p, owner, now).0.lines, tried.lines) && WellFormed(tried.lines)
      && (r.Value? && r.value.Some? ==> req.id !in tried.lines.waiters)
  {
    var queued := Enqueue(d, req, p, owner, now).0;
    EnqueueOk(d, req, p, owner, now);
    ReserveFewer(queued, req, p, owner, None, id, now);
    QueueAndReserveOk(d, req, p, owner, id, now);
    if Reserve(queued, req, p, owner, None, id, now).1 == Value(Some(id)) {
      ReserveGrants(queued, req, p, owner, None, id, now);
    }
  }

  /** An immediate attempt leaves no waiter of its own. */
  lemma TryFewer(d: Desk, req: Request, p: PoolId, owner: OwnerId, id: AttemptId, now: Time)
    requires DeskOk(d) && Possible(d, Tries(req, p, owner, id), now)
    ensures var e := TryReserve(d, req, p, owner, id, now).0;
      e == d || (req.id !in e.lines.waiters && Fewer(Enqueue(d, req, p, owner, now).0.lines, e.lines))
  {
    QueueAndReserveFewer(d, req, p, owner, id, now);
    EraseFewer(QueueAndReserve(d, req, p, owner, id, now).0.lines, p, req.id);
  }

  lemma TryHonest(d: Desk, req: Request, p: PoolId, owner: OwnerId, id: AttemptId, now: Time)
    requires DeskOk(d) && Possible(d, Tries(req, p, owner, id), now) && Honest(d.lines, now)
    ensures Honest(TryReserve(d, req, p, owner, id, now).0.lines, now)
  {
    var queued, e := Enqueue(d, req, p, owner, now).0, TryReserve(d, req, p, owner, id, now).0;
    TryFewer(d, req, p, owner, id, now);
    assert req.id in d.lines.waiters ==> WaiterRow(d, req.id);
    EnqueueShape(d, req, p, owner, now);
    if e != d {
      forall r, x | x in Queue(queued.lines, r) && x.id in e.lines.waiters
        ensures HonestEntry(queued.lines.waiters, r, now, x)
      {
        assert Sorted(Queue(d.lines, p));
        PushSorted(Queue(d.lines, p), EntryOf(req.id, WaiterOf(req, p, owner, now)));
        assert x in Queue(d.lines, r) && HonestEntry(d.lines.waiters, r, now, x);
      }
      FewerHonest(queued.lines, e.lines, now, now);
    }
  }

  lemma StillHonest(l: Lines, m: Lines, now: Time, later: Time)
    requires Honest(l, now) && Fewer(l, m) && now <= later
    ensures Honest(m, later)
  {
    FewerHonest(l, m, now, later);
  }

  /** After a turn entries are still honest exactly when the turn was clean. */
  lemma TurnHonest(d: Desk, turn: Turn, now: Time)
    requires DeskOk(d) && Possible(d, turn, now) && Honest(d.lines, now)
    ensures Honest(Turned(d, turn, now).lines, now) <==> Clean(d, turn, now)
  {
    var e := Turned(d, turn, now);
    match turn
    case Enqueues(req, p, owner) =>
      assert req.id in d.lines.waiters ==> WaiterRow(d, req.id);
      EnqueueShape(d, req, p, owner, now);
      if e != d {
        JoinHonest(d.lines, req.id, WaiterOf(req, p, owner, now), now);
      }
    case Reserves(req, p, owner, previous, id) =>
      ReserveFewer(d, req, p, owner, previous, id, now);
      StillHonest(d.lines, e.lines, now, now);
    case Tries(req, p, owner, id) => TryHonest(d, req, p, owner, id, now);
    case Leaves(id) =>
      LeaveFewer(d.lines, id);
      StillHonest(d.lines, e.lines, now, now);
    case Waits(id, w) => JoinHonest(d.lines, id, w, now);
    case GrantsDurable(id) =>
      GrantDurableFewer(d, id, now);
      StillHonest(d.lines, e.lines, now, now);
    case _ =>
  }

  predicate CleanAt(run: seq<Desk>, turns: seq<Turn>, times: seq<Time>, k: nat) {
    k < |run| && k < |turns| && k < |times| && Clean(run[k], turns[k], times[k])
  }

  ghost predicate CleanBefore(run: seq<Desk>, turns: seq<Turn>, times: seq<Time>, k: nat) {
    forall j: nat {:trigger CleanAt(run, turns, times, j)} :: j < k ==> CleanAt(run, turns, times, j)
  }

  lemma {:induction false} RunHonest(run: seq<Desk>, turns: seq<Turn>, times: seq<Time>, k: nat, t: Time)
    requires IsDeskRun(run, turns, times) && k < |run| && CleanBefore(run, turns, times, k)
    requires k > 0 ==> times[k - 1] <= t
    ensures Honest(run[k].lines, t)
    decreases k
  {
    if k > 0 {
      var now := times[k - 1];
      RunHonest(run, turns, times, k - 1, now);
      DeskRunOk(run, turns, times, k - 1);
      assert DeskTaken(run, turns, times, k - 1) && CleanAt(run, turns, times, k - 1);
      TurnHonest(run[k - 1], turns[k - 1], now);
      StillHonest(run[k].lines, run[k].lines, now, t);
    }
  }

  // ---------------------------------------------------------------- what clean runs are worth

  /** As long as every waiter joined clean, `_first` returns the least waiter alive, or nobody if none is. */
  lemma RunFirstIsLeast(run: seq<Desk>, turns: seq<Turn>, times: seq<Time>, k: nat, p: PoolId, now: Time)
    requires IsDeskRun(run, turns, times) && k < |run| && CleanBefore(run, turns, times, k)
    requires k > 0 ==> times[k - 1] <= now
    ensures FirstLeast(run[k].lines, p, now)
  {
    DeskRunOk(run, turns, times, k);
    RunHonest(run, turns, times, k, now);
    FirstIsLeast(run[k].lines, p, now);
  }

  /** And granting only heads wastes no capacity: when the head of a line is refused, so is everyone behind it. */
  lemma RunHeadIsEnough(run: seq<Desk>, turns: seq<Turn>, times: seq<Time>, k: nat, p: PoolId, now: Time, j: Id)
    requires IsDeskRun(run, turns, times) && k < |run| && CleanBefore(run, turns, times, k)
    requires (k > 0 ==> times[k - 1] <= now) && Alive(run[k].lines, p, now, j)
    ensures var l, s := run[k].lines, run[k].slots;
      && First(l, p, now).1.Some? && First(l, p, now).1.value in l.waiters
      && var head := l.waiters[First(l, p, now).1.value];
         !TryAcquire(s, p, head.workload) ==> !TryAcquire(s, p, l.waiters[j].workload)
  {
    DeskRunOk(run, turns, times, k);
    RunHonest(run, turns, times, k, now);
    HeadRefusedAllRefused(run[k].lines, run[k].slots, p, now, j);
  }

  /** And a grant goes to the least waiter alive, direct or durable. */
  lemma RunGrantsLeast(run: seq<Desk>, turns: seq<Turn>, times: seq<Time>, k: nat)
    requires IsDeskRun(run, turns, times) && k < |turns| && CleanBefore(run, turns, times, k)
    requires turns[k].Reserves? || turns[k].GrantsDurable?
    requires DeskTaken(run, turns, times, k) && StepOf(run[k], turns[k], times[k]).Grant?
    ensures var l, p := run[k].lines, StepOf(run[k], turns[k], times[k]).permit.pool;
      var id := if turns[k].Reserves? then turns[k].req.id else turns[k].waiter;
      && Alive(l, p, times[k], id)
      && forall j :: Alive(l, p, times[k], j) ==> Before(l, id, j)
  {
    var d, now := run[k], times[k];
    var p := if turns[k].Reserves? then turns[k].pool else d.lines.waiters[turns[k].waiter].pool;
    RunFirstIsLeast(run, turns, times, k, p, now);
  }

  /** Someone better than the new waiter `id` stands behind a leftover entry of `id` with this reading. */
  ghost predicate Jumps(l: Lines, p: PoolId, id: Id, w: Waiter, now: Time) {
    && id !in l.waiters
    && exists e, j :: e in Queue(l, p) && e.id == id && e.queuedAt == w.queuedAt && Alive(l, p, now, j)
                      && Leq(e, EntryOf(j, l.waiters[j])) && !Leq(EntryOf(id, w), EntryOf(j, l.waiters[j]))
  }

  /** An immediate grant goes to the least waiter, the newcomer included, exactly when the newcomer jumps no one. */
  lemma RunTryGrantsLeastIff(run: seq<Desk>, turns: seq<Turn>, times: seq<Time>, k: nat)
    requires IsDeskRun(run, turns, times) && k < |turns| && CleanBefore(run, turns, times, k)
    requires turns[k].Tries? && DeskTaken(run, turns, times, k) && StepOf(run[k], turns[k], times[k]).Grant?
    ensures var req, p, now := turns[k].req, turns[k].pool, times[k];
      var w := WaiterOf(req, p, turns[k].owner, now);
      var l := if req.id in run[k].lines.waiters then run[k].lines else Join(run[k].lines, req.id, w);
      Alive(l, p, now, req.id)
      && ((forall j :: Alive(l, p, now, j) ==> Before(l, req.id, j)) <==> !Jumps(run[k].lines, p, req.id, w, now))
  {
    var d, req, p, owner, now := run[k], turns[k].req, turns[k].pool, turns[k].owner, times[k];
    DeskRunOk(run, turns, times, k);
    TryGrantsFirst(d, req, p, owner, turns[k].id, now);
    if req.id in d.lines.waiters {
      RunFirstIsLeast(run, turns, times, k, p, now);
    } else {
      NewcomerFirst(d.lines, req.id, WaiterOf(req, p, owner, now), now);
    }
  }

  lemma TryGrantsFirst(d: Desk, req: Request, p: PoolId, owner: OwnerId, id: AttemptId, now: Time)
    requires DeskOk(d) && Possible(d, Tries(req, p, owner, id), now)
    requires id in TryReserve(d, req, p, owner, id, now).0.slots.record
    ensures var w := WaiterOf(req, p, owner, now);
      var l := if req.id in d.lines.waiters then d.lines else Join(d.lines, req.id, w);
      First(l, p, now).1 == Some(req.id)
  {
    assert req.id in d.lines.waiters ==> WaiterRow(d, req.id);
    EnqueueShape(d, req, p, owner, now);
    TrySlots(d, req, p, owner, id, now);
    ReserveNames(Enqueue(d, req, p, owner, now).0, req, p, owner, id, now);
  }

  lemma ReserveNames(d: Desk, req: Request, p: PoolId, owner: OwnerId, id: AttemptId, now: Time)
    requires id !in d.slots.record && id in Reserve(d, req, p, owner, None, id, now).0.slots.record
    ensures First(d.lines, p, now).1 == Some(req.id)
  {
  }

  lemma NewcomerFirst(l: Lines, id: Id, w: Waiter, now: Time)
    requires WellFormed(l) && id !in l.waiters && First(Join(l, id, w), w.pool, now).1 == Some(id)
    ensures var m := Join(l, id, w);
      Alive(m, w.pool, now, id)
      && ((forall j :: Alive(m, w.pool, now, j) ==> Before(m, id, j)) <==> !Jumps(l, w.pool, id, w, now))
  {
    var m, p := Join(l, id, w), w.pool;
    JoinWellFormed(l, id, w);
    FirstHead(m, p, now);
    FirstEvicts(m, p, now);
    if !Jumps(l, p, id, w, now) {
      forall j | Alive(m, p, now, j) ensures Before(m, id, j) {
        if j != id {
          NotJumped(l, id, w, now, j);
        }
      }
    } else {
      var e, j :| e in Queue(l, p) && e.id == id && e.queuedAt == w.queuedAt && Alive(l, p, now, j)
                  && Leq(e, EntryOf(j, l.waiters[j])) && !Leq(EntryOf(id, w), EntryOf(j, l.waiters[j]));
      assert Alive(m, p, now, j) && !Before(m, id, j);
    }
  }

  lemma NotJumped(l: Lines, id: Id, w: Waiter, now: Time, j: Id)
    requires WellFormed(l) && id !in l.waiters && First(Join(l, id, w), w.pool, now).1 == Some(id)
    requires !Jumps(l, w.pool, id, w, now) && Alive(l, w.pool, now, j)
    ensures Leq(EntryOf(id, w), EntryOf(j, l.waiters[j]))
  {
    var m, p := Join(l, id, w), w.pool;
    JoinWellFormed(l, id, w);
    assert Listed(m, j);
    FirstNotAfter(m, p, now, EntryOf(j, l.waiters[j]));
    FirstFewer(m, p, now);
    var head := Queue(First(m, p, now).0, p)[0];
    if head in Queue(l, p) {
      assert Leq(head, EntryOf(j, l.waiters[j]));
    } else {
      JoinBrings(l, id, w, p, head);
    }
  }

  // ---------------------------------------------------------------- which calls make clean runs

  /** A direct request comes to a pool. */
  predicate IsCall(turn: Turn) {
    turn.Enqueues? || turn.Tries?
  }

  /** Within one reading no request identity comes to one pool under two classes. */
  predicate OneClass(turns: seq<Turn>, times: seq<Time>) {
    |turns| == |times| &&
    forall j, k :: 0 <= j < k < |turns| && IsCall(turns[j]) && IsCall(turns[k]) && times[j] == times[k]
                   && turns[j].req.id == turns[k].req.id && turns[j].pool == turns[k].pool
                   ==> turns[j].req.workload == turns[k].req.workload
  }

  /** Durable attempts keep the class of their roots, and no request has the identity of one. */
  predicate Registered(turns: seq<Turn>, classes: map<Id, Class>) {
    forall k :: 0 <= k < |turns| ==>
      && (turns[k].Waits? ==> turns[k].waiter in classes && turns[k].entry.workload == classes[turns[k].waiter])
      && (IsCall(turns[k]) ==> turns[k].req.id !in classes)
  }

  /** Entry `e` of pool `p` was made by this turn. */
  predicate Brings(turn: Turn, now: Time, p: PoolId, e: Entry) {
    if turn.Waits? then turn.entry.pool == p && e == EntryOf(turn.waiter, turn.entry)
    else IsCall(turn) && turn.pool == p && e == Entry(Rank(turn.req.workload), now, turn.req.id)
  }

  lemma JoinBrings(l: Lines, id: Id, w: Waiter, p: PoolId, e: Entry)
    requires WellFormed(l) && e in Queue(Join(l, id, w), p) && e !in Queue(l, p)
    ensures p == w.pool && e == EntryOf(id, w)
  {
    assert Sorted(Queue(l, w.pool));
    PushSorted(Queue(l, w.pool), EntryOf(id, w));
  }

  lemma CallBrings(d: Desk, req: Request, p: PoolId, owner: OwnerId, now: Time, r: PoolId, e: Entry)
    requires DeskOk(d) && DirectId(d, req.id)
    requires e in Queue(Enqueue(d, req, p, owner, now).0.lines, r) && e !in Queue(d.lines, r)
    ensures r == p && e == Entry(Rank(req.workload), now, req.id)
  {
    assert req.id in d.lines.waiters ==> WaiterRow(d, req.id);
    EnqueueShape(d, req, p, owner, now);
    JoinBrings(d.lines, req.id, WaiterOf(req, p, owner, now), r, e);
  }

  /** Only joins make entries. */
  lemma TurnBrings(d: Desk, turn: Turn, now: Time, p: PoolId, e: Entry)
    requires DeskOk(d) && Possible(d, turn, now) && e in Queue(Turned(d, turn, now).lines, p)
    ensures e in Queue(d.lines, p) || Brings(turn, now, p, e)
  {
    if e !in Queue(d.lines, p) {
      match turn
      case Enqueues(req, r, owner) => CallBrings(d, req, r, owner, now, p, e);
      case Tries(req, r, owner, id) =>
        TryFewer(d, req, r, owner, id, now);
        CallBrings(d, req, r, owner, now, p, e);
      case Waits(id, w) => JoinBrings(d.lines, id, w, p, e);
      case Reserves(req, r, owner, previous, id) => ReserveFewer(d, req, r, owner, previous, id, now);
      case GrantsDurable(id) => GrantDurableFewer(d, id, now);
      case _ =>
    }
  }

  lemma {:induction false} Origin(run: seq<Desk>, turns: seq<Turn>, times: seq<Time>, k: nat, p: PoolId, e: Entry)
    returns (j: nat)
    requires IsDeskRun(run, turns, times) && k < |run| && e in Queue(run[k].lines, p)
    ensures j < k && Brings(turns[j], times[j], p, e)
    decreases k
  {
    assert k > 0;
    DeskRunOk(run, turns, times, k - 1);
    assert DeskTaken(run, turns, times, k - 1);
    TurnBrings(run[k - 1], turns[k - 1], times[k - 1], p, e);
    if Brings(turns[k - 1], times[k - 1], p, e) {
      j := k - 1;
    } else {
      j := Origin(run, turns, times, k - 1, p, e);
    }
  }

  /** Every run is clean whose callers do not bring one identity to one pool under two classes within one reading. */
  lemma CallsClean(run: seq<Desk>, turns: seq<Turn>, times: seq<Time>, classes: map<Id, Class>, k: nat)
    requires IsDeskRun(run, turns, times) && k <= |turns| && OneClass(turns, times) && Registered(turns, classes)
    ensures CleanBefore(run, turns, times, k)
  {
    forall i: nat | i < k ensures CleanAt(run, turns, times, i) {
      var l, turn := run[i].lines, turns[i];
      if turn.Enqueues? {
        forall e | e in Queue(l, turn.pool) && e.id == turn.req.id && e.queuedAt == times[i]
          ensures e.rank == Rank(turn.req.workload)
        {
          var j := Origin(run, turns, times, i, turn.pool, e);
        }
      } else if turn.Waits? {
        forall e | e in Queue(l, turn.entry.pool) && e.id == turn.waiter ensures e.rank == Rank(turn.entry.workload) {
          var j := Origin(run, turns, times, i, turn.entry.pool, e);
        }
      }
    }
  }

  // ---------------------------------------------------------------- clean joins are necessary

  /** A clean continuation of the run from `d`, looked at time `t`. */
  ghost predicate Plays(d: Desk, now: Time, script: seq<(Turn, Time)>, e: Desk, t: Time)
    decreases |script|
  {
    if script == [] then d == e && now <= t else
      var (turn, at) := script[0];
      now <= at && Possible(d, turn, at) && Clean(d, turn, at) && Plays(Turned(d, turn, at), at, script[1..], e, t)
  }

  /** However the run goes on with clean turns, `_first` is right at every pool. */
  ghost predicate Trusted(d: Desk, now: Time) {
    forall script, e, t, p :: Plays(d, now, script, e, t) ==> FirstLeast(e.lines, p, t)
  }

  lemma {:induction false} PlaysHonest(d: Desk, now: Time, script: seq<(Turn, Time)>, e: Desk, t: Time)
    requires DeskOk(d) && Honest(d.lines, now) && Plays(d, now, script, e, t)
    ensures DeskOk(e) && Honest(e.lines, t)
    decreases |script|
  {
    if script == [] {
      StillHonest(d.lines, d.lines, now, t);
    } else {
      var (turn, at) := script[0];
      StillHonest(d.lines, d.lines, now, at);
      TurnHonest(d, turn, at);
      TurnOk(d, turn, at, Turned(d, turn, at));
      PlaysHonest(Turned(d, turn, at), at, script[1..], e, t);
    }
  }

  /** An identity above those of all entries and of `id`. */
  function Above(q: seq<Entry>, id: Id): (r: Id)
    ensures r > id && forall e :: e in q ==> e.id < r
  {
    if q == [] then id + 1 else
      var r := Above(q[1..], id);
      if q[0].id < r then r else q[0].id + 1
  }

  function ClassOf(rank: nat): Class {
    if rank == 0 then Qa else if rank == 1 then UserTask else if rank == 2 then Background else Maintenance
  }

  /** The waiter that an entry which promises too much would pass over. */
  function PassedOver(e: Entry, p: PoolId, now: Time): Waiter {
    Waiter(0, p, 0, ClassOf(e.rank), now + 1, e.queuedAt, false)
  }

  /** With only the waiter of a lying entry and the one it passes over, `_first` names the wrong one. */
  lemma PassesOver(l: Lines, p: PoolId, now: Time, e: Entry, j: Id)
    requires WellFormed(l) && l.waiters.Keys == {e.id} && e in Queue(l, p) && !HonestEntry(l.waiters, p, now, e)
    requires j > e.id && forall x :: x in Queue(l, p) ==> x.id < j
    ensures !FirstLeast(Join(l, j, PassedOver(e, p, now)), p, now)
  {
    NamesOld(l, p, now, e, j, PassedOver(e, p, now));
    assert !Before(Join(l, j, PassedOver(e, p, now)), e.id, j);
    assert Alive(Join(l, j, PassedOver(e, p, now)), p, now, j);
  }

  lemma NamesOld(l: Lines, p: PoolId, now: Time, e: Entry, j: Id, w: Waiter)
    requires WellFormed(l) && e in Queue(l, p) && Matches(l.waiters, p, e) && l.waiters[e.id].deadline > now
    requires j !in l.waiters && w.pool == p && e.id < j && e.rank == Rank(w.workload) && e.queuedAt == w.queuedAt
    requires forall x :: x in Queue(l, p) ==> x.id < j
    ensures var first := First(Join(l, j, w), p, now).1; first.Some? && first.value in l.waiters
  {
    var m := Join(l, j, w);
    JoinWellFormed(l, j, w);
    assert Sorted(Queue(l, p));
    PushSorted(Queue(l, p), EntryOf(j, w));
    FirstNotAfter(m, p, now, e);
    HeadIsOld(l, p, j, w, Queue(First(m, p, now).0, p)[0], e);
    FirstHead(m, p, now);
    FirstFewer(m, p, now);
  }

  /** A head no later than an old entry is not that of a newcomer who stands behind it. */
  lemma HeadIsOld(l: Lines, p: PoolId, j: Id, w: Waiter, head: Entry, e: Entry)
    requires w.pool == p && head in Queue(Join(l, j, w), p) && Leq(head, e) && Sorted(Queue(l, p))
    requires e.id < j && e.rank == Rank(w.workload) && e.queuedAt == w.queuedAt
    requires forall x :: x in Queue(l, p) ==> x.id < j
    ensures head.id != j
  {
    PushSorted(Queue(l, p), EntryOf(j, w));
  }

  /** From an entry that promises too much a clean continuation leads to a wrong answer at once. */
  lemma {:induction false} Misled(d: Desk, now: Time, p: PoolId, e: Entry)
    returns (script: seq<(Turn, Time)>, end: Desk)
    requires WellFormed(d.lines) && e in Queue(d.lines, p) && !HonestEntry(d.lines.waiters, p, now, e)
    ensures Plays(d, now, script, end, now) && !FirstLeast(end.lines, p, now)
    decreases |d.lines.waiters|
  {
    if x :| x in d.lines.waiters && x != e.id {
      var next := Turned(d, Leaves(x), now);
      LeaveWellFormed(d.lines, x);
      var rest;
      rest, end := Misled(next, now, p, e);
      script := [(Leaves(x), now)] + rest;
    } else {
      var j := Above(Queue(d.lines, p), e.id);
      var turn := Waits(j, PassedOver(e, p, now));
      assert d.lines.waiters.Keys == {e.id};
      PassesOver(d.lines, p, now, e, j);
      end := Turned(d, turn, now);
      script := [(turn, now)];
      assert Plays(end, now, [], end, now);
    }
  }

  lemma TrustedIffHonest(d: Desk, now: Time)
    requires DeskOk(d)
    ensures Trusted(d, now) <==> Honest(d.lines, now)
  {
    if Honest(d.lines, now) {
      forall script, e, t, p | Plays(d, now, script, e, t) ensures FirstLeast(e.lines, p, t) {
        PlaysHonest(d, now, script, e, t);
        FirstIsLeast(e.lines, p, t);
      }
    } else {
      var p, e :| e in Queue(d.lines, p) && !HonestEntry(d.lines.waiters, p, now, e);
      var script, end := Misled(d, now, p, e);
      assert Plays(d, now, script, end, now) && !FirstLeast(end.lines, p, now);
    }
  }

  ghost predicate TrustedAt(run: seq<Desk>, times: seq<Time>, k: nat) {
    k + 1 < |run| && k < |times| && Trusted(run[k + 1], times[k])
  }

  /**
   `_first` can be trusted after every turn of a run, whatever clean turns follow,
   exactly when every turn of the run is clean.
   */
  lemma FirstIsLeastIff(run: seq<Desk>, turns: seq<Turn>, times: seq<Time>)
    requires IsDeskRun(run, turns, times)
    ensures (forall k: nat :: k < |turns| ==> TrustedAt(run, times, k)) <==> CleanBefore(run, turns, times, |turns|)
  {
    if CleanBefore(run, turns, times, |turns|) {
      forall k: nat | k < |turns| ensures TrustedAt(run, times, k) {
        RunHonest(run, turns, times, k + 1, times[k]);
        DeskRunOk(run, turns, times, k + 1);
        TrustedIffHonest(run[k + 1], times[k]);
      }
    }
    if forall k: nat :: k < |turns| ==> TrustedAt(run, times, k) {
      TrustedClean(run, turns, times, |turns|);
    }
  }

  lemma {:induction false} TrustedClean(run: seq<Desk>, turns: seq<Turn>, times: seq<Time>, k: nat)
    requires IsDeskRun(run, turns, times) && k <= |turns|
    requires forall j: nat :: j < |turns| ==> TrustedAt(run, times, j)
    ensures CleanBefore(run, turns, times, k)
    decreases k
  {
    if k > 0 {
      TrustedClean(run, turns, times, k - 1);
      RunHonest(run, turns, times, k - 1, times[k - 1]);
      DeskRunOk(run, turns, times, k - 1);
      DeskRunOk(run, turns, times, k);
      assert DeskTaken(run, turns, times, k - 1) && TrustedAt(run, times, k - 1);
      TrustedIffHonest(run[k], times[k - 1]);
      TurnHonest(run[k - 1], turns[k - 1], times[k - 1]);
    }
  }

  // ---------------------------------------------------------------- runs that are not clean

  const NEED := Need(0, 0, None, 0, 1, 1)

  /** An engine with room for four permits, none of them for background work. */
  const ENGINE := PoolView(Llm, 4, 0, 4, 1, true, 0, true, 4, 0, Offer(0, 0, 0, 0, 10, 1))

  /** Two such pools, both open. */
  function Opened(): Desk {
    Desk(Lines(map[], map[], map[], map[]), Slots(map[0 := ENGINE, 1 := ENGINE], map[], {}, [], map[]), map[],
         map[0 := 0, 1 := 0], {}, true, 10, 10, 100)
  }

  function Asked(id: Id, c: Class): Request {
    Request(id, 0, c, 9, None, None, NEED)
  }

  predicate Leads(d: Desk, turn: Turn, e: Desk) {
    Possible(d, turn, 5) && !IsProbe(turn) && Turned(d, turn, 5) == e
  }

  lemma Prolong(run: seq<Desk>, turns: seq<Turn>, times: seq<Time>, turn: Turn, e: Desk)
    returns (longer: seq<Desk>, more: seq<Turn>, later: seq<Time>)
    requires IsDeskRun(run, turns, times) && (forall k :: 0 <= k < |times| ==> times[k] == 5)
    requires Leads(run[|run| - 1], turn, e)
    ensures IsDeskRun(longer, more, later) && (forall k :: 0 <= k < |later| ==> later[k] == 5)
    ensures more == turns + [turn] && longer == run + [e]
  {
    longer, more, later := run + [e], turns + [turn], times + [5];
    forall k: nat | k < |more| ensures DeskTaken(longer, more, later, k) {
      assert k < |turns| ==> DeskTaken(run, turns, times, k);
    }
  }

  lemma TwoTurns(a: Desk, s: Turn, b: Desk, t: Turn, c: Desk)
    returns (run: seq<Desk>, turns: seq<Turn>, times: seq<Time>)
    requires a.lines == Lines(map[], map[], map[], map[]) && Booted(a.slots) && Leads(a, s, b) && Leads(b, t, c)
    ensures IsDeskRun(run, turns, times) && (forall k :: 0 <= k < |times| ==> times[k] == 5)
    ensures run == [a, b, c] && turns == [s, t]
  {
    run, turns, times := Prolong([a], [], [], s, b);
    run, turns, times := Prolong(run, turns, times, t, c);
  }

  lemma FourTurns(a: Desk, s: Turn, b: Desk, t: Turn, c: Desk, u: Turn, d: Desk, v: Turn, e: Desk)
    returns (run: seq<Desk>, turns: seq<Turn>, times: seq<Time>)
    requires a.lines == Lines(map[], map[], map[], map[]) && Booted(a.slots)
    requires Leads(a, s, b) && Leads(b, t, c) && Leads(c, u, d) && Leads(d, v, e)
    ensures IsDeskRun(run, turns, times) && (forall k :: 0 <= k < |times| ==> times[k] == 5)
    ensures run == [a, b, c, d, e] && turns == [s, t, u, v]
  {
    run, turns, times := TwoTurns(a, s, b, t, c);
    run, turns, times := Prolong(run, turns, times, u, d);
    run, turns, times := Prolong(run, turns, times, v, e);
  }

  /** A desk with these waiters in the line of pool 0, all of one tenant. */
  function Standing(waiters: map<Id, Waiter>, heap: seq<Entry>, count: int, known: map<Id, Known>): Desk {
    Opened().(lines := Lines(waiters, map[0 := heap], map[0 := count], map[(0, 0) := count]), known := known)
  }

  function W(id: Id, c: Class): Waiter {
    WaiterOf(Asked(id, c), 0, 0, 5)
  }

  function K(id: Id, c: Class): Known {
    Known(Asked(id, c), 0, 105)
  }

  function OneWaits(): Desk {
    Standing(map[1 := W(1, Qa)], [Entry(0, 5, 1)], 1, map[1 := K(1, Qa)])
  }

  function TwoWait(): Desk {
    Standing(map[1 := W(1, Qa), 2 := W(2, Qa)], [Entry(0, 5, 1), Entry(0, 5, 2)], 2, map[1 := K(1, Qa), 2 := K(2, Qa)])
  }

  lemma FirstJoins()
    ensures Leads(Opened(), Enqueues(Asked(1, Qa), 0, 0), OneWaits())
    ensures Clean(Opened(), Enqueues(Asked(1, Qa), 0, 0), 5)
  {
    assert Push([], Entry(0, 5, 1)) == [Entry(0, 5, 1)];
  }

  lemma {:induction false} PushLast(q: seq<Entry>, e: Entry)
    requires forall x :: x in q ==> !Leq(e, x)
    ensures Push(q, e) == q + [e]
  {
    if q != [] {
      PushLast(q[1..], e);
      assert q == [q[0]] + q[1..];
    }
  }

  lemma StandingJoins(waiters: map<Id, Waiter>, heap: seq<Entry>, count: int, known: map<Id, Known>, id: Id, c: Class)
    requires id !in waiters && id !in known && count < 10
    requires forall x :: x in heap ==> !Leq(Entry(Rank(c), 5, id), x)
    ensures Leads(Standing(waiters, heap, count, known), Enqueues(Asked(id, c), 0, 0),
                  Standing(waiters[id := W(id, c)], heap + [Entry(Rank(c), 5, id)], count + 1, known[id := K(id, c)]))
  {
    PushLast(heap, Entry(Rank(c), 5, id));
    var l := Standing(waiters, heap, count, known).lines;
    assert Queue(l, 0) == heap;
    assert l.queues[0 := heap + [Entry(Rank(c), 5, id)]] == map[0 := heap + [Entry(Rank(c), 5, id)]];
    assert l.queued[0 := count + 1] == map[0 := count + 1];
    assert l.byTenant[(0, 0) := count + 1] == map[(0, 0) := count + 1];
  }

  lemma SecondJoins()
    ensures Leads(OneWaits(), Enqueues(Asked(2, Qa), 0, 0), TwoWait())
    ensures Clean(OneWaits(), Enqueues(Asked(2, Qa), 0, 0), 5)
  {
    StandingJoins(map[1 := W(1, Qa)], [Entry(0, 5, 1)], 1, map[1 := K(1, Qa)], 2, Qa);
    assert map[1 := W(1, Qa)][2 := W(2, Qa)] == TwoWait().lines.waiters;
    assert map[1 := K(1, Qa)][2 := K(2, Qa)] == TwoWait().known;
    assert [Entry(0, 5, 1)] + [Entry(0, 5, 2)] == [Entry(0, 5, 1), Entry(0, 5, 2)];
  }

  /** Request 1 has left; its entry is still in the heap. */
  function OneLeft(known: map<Id, Known>): Desk {
    Standing(map[2 := W(2, Qa)], [Entry(0, 5, 1), Entry(0, 5, 2)], 1, known)
  }

  const BACK := Asked(1, Background)

  lemma FirstLeaves()
    ensures Leads(TwoWait(), Leaves(1), OneLeft(TwoWait().known))
  {
    var t := TwoWait();
    assert t.lines.waiters - {1} == map[2 := W(2, Qa)];
    assert t.lines.queued[0 := 1] == map[0 := 1] && t.lines.byTenant[(0, 0) := 1] == map[(0, 0) := 1];
  }

  /** An attempt at another pool under another class is refused and erases the identity, but not that entry. */
  lemma IdentityErased()
    ensures Leads(OneLeft(TwoWait().known), Tries(BACK, 1, 0, 0), OneLeft(map[2 := K(2, Qa)]))
    ensures TryReserve(OneLeft(TwoWait().known), BACK, 1, 0, 0, 5).1 == Clash
  {
    var d := OneLeft(TwoWait().known);
    assert Enqueue(d, BACK, 1, 0, 5) == (d, Clash);
    assert d.known - {1} == map[2 := K(2, Qa)];
  }

  function OneBack(): Desk {
    Standing(map[1 := W(1, Background), 2 := W(2, Qa)], [Entry(0, 5, 1), Entry(0, 5, 2), Entry(2, 5, 1)], 2,
             map[1 := K(1, Background), 2 := K(2, Qa)])
  }

  lemma FirstReturns()
    ensures Leads(OneLeft(map[2 := K(2, Qa)]), Enqueues(BACK, 0, 0), OneBack())
    ensures !Clean(OneLeft(map[2 := K(2, Qa)]), Enqueues(BACK, 0, 0), 5)
  {
    assert Queue(OneLeft(map[2 := K(2, Qa)]).lines, 0)[0] == Entry(0, 5, 1);
    var heap := [Entry(0, 5, 1), Entry(0, 5, 2)];
    StandingJoins(map[2 := W(2, Qa)], heap, 1, map[2 := K(2, Qa)], 1, Background);
    assert map[2 := W(2, Qa)][1 := W(1, Background)] == OneBack().lines.waiters;
    assert map[2 := K(2, Qa)][1 := K(1, Background)] == OneBack().known;
    assert heap + [Entry(2, 5, 1)] == [Entry(0, 5, 1), Entry(0, 5, 2), Entry(2, 5, 1)];
  }

  lemma OneBackIsFirst()
    ensures var l, s := OneBack().lines, OneBack().slots;
      && First(l, 0, 5).1 == Some(1) && Alive(l, 0, 5, 1) && Alive(l, 0, 5, 2) && !Before(l, 1, 2)
      && !TryAcquire(s, 0, l.waiters[1].workload) && TryAcquire(s, 0, l.waiters[2].workload)
  {
    assert Active(OneBack().slots, 0) == {} && Working(OneBack().slots, 0) == {};
  }

  /**
   All within one reading a request waits, leaves, loses its identity to a refused
   attempt at another pool, and comes back under a worse class: its old entry puts
   it before a better waiter, and capacity that would do for that one lies idle.
   */
  lemma LeftoverMisleads() returns (run: seq<Desk>, turns: seq<Turn>, times: seq<Time>)
    ensures IsDeskRun(run, turns, times) && |turns| == 5 && (forall k :: 0 <= k < |turns| ==> times[k] == 5)
    ensures turns == [Enqueues(Asked(1, Qa), 0, 0), Enqueues(Asked(2, Qa), 0, 0), Leaves(1), Tries(BACK, 1, 0, 0),
                      Enqueues(BACK, 0, 0)]
    ensures var l, s := run[5].lines, run[5].slots;
      && First(l, 0, 5).1 == Some(1) && Alive(l, 0, 5, 1) && Alive(l, 0, 5, 2) && !Before(l, 1, 2)
      && !TryAcquire(s, 0, l.waiters[1].workload) && TryAcquire(s, 0, l.waiters[2].workload)
    ensures CleanBefore(run, turns, times, 4) && !Clean(run[4], turns[4], 5)
  {
    run, turns, times := RunToErased();
    FirstReturns();
    OneBackIsFirst();
    ghost var before := run;
    run, turns, times := Prolong(run, turns, times, Enqueues(BACK, 0, 0), OneBack());
    forall j: nat | j < 4 ensures CleanAt(run, turns, times, j) {
      assert run[j] == before[j];
    }
  }

  lemma RunToErased() returns (run: seq<Desk>, turns: seq<Turn>, times: seq<Time>)
    ensures IsDeskRun(run, turns, times) && |turns| == 4 && (forall k :: 0 <= k < |turns| ==> times[k] == 5)
    ensures turns == [Enqueues(Asked(1, Qa), 0, 0), Enqueues(Asked(2, Qa), 0, 0), Leaves(1), Tries(BACK, 1, 0, 0)]
    ensures run[4] == OneLeft(map[2 := K(2, Qa)])
    ensures forall j :: 0 <= j < 4 ==> Clean(run[j], turns[j], 5)
  {
    FirstJoins();
    SecondJoins();
    FirstLeaves();
    IdentityErased();
    run, turns, times := FourTurns(Opened(), Enqueues(Asked(1, Qa), 0, 0), OneWaits(),
                                   Enqueues(Asked(2, Qa), 0, 0), TwoWait(), Leaves(1), OneLeft(TwoWait().known),
                                   Tries(BACK, 1, 0, 0), OneLeft(map[2 := K(2, Qa)]));
  }

  function BackWaits(): Desk {
    Standing(map[1 := W(1, Background)], [Entry(2, 5, 1)], 1, map[1 := K(1, Background)])
  }

  lemma BackJoins()
    ensures Leads(Opened(), Enqueues(BACK, 0, 0), BackWaits())
  {
    assert Push([], Entry(2, 5, 1)) == [Entry(2, 5, 1)];
  }

  /** A request that waits tries to be served at once and is refused: it waits no longer and is not known. */
  lemma RefusalErasesWaiter() returns (run: seq<Desk>, turns: seq<Turn>, times: seq<Time>)
    ensures IsDeskRun(run, turns, times) && turns == [Enqueues(BACK, 0, 0), Tries(BACK, 0, 0, 0)]
    ensures Alive(run[1].lines, 0, 5, 1) && 1 in run[1].known
    ensures TryReserve(run[1], BACK, 0, 0, 0, 5) == (run[2], Value(Refused(InferenceCapacity)))
    ensures 1 !in run[2].lines.waiters && 1 !in run[2].known && !NoTrace(run[1], run[2], 0, 1, 5)
  {
    BackJoins();
    var d := BackWaits();
    assert Active(d.slots, 0) == {} && Working(d.slots, 0) == {};
    assert QueueAndReserve(d, BACK, 0, 0, 0, 5).1 == Value(None);
    var e := TryReserve(d, BACK, 0, 0, 0, 5).0;
    run, turns, times := TwoTurns(Opened(), Enqueues(BACK, 0, 0), d, Tries(BACK, 0, 0, 0), e);
  }
}
