/**
 The permits of the in-memory scheduler: the capacity rules a grant must pass,
 the states of direct attempts, and how a sent attempt gives its slot back.
 A permit object that two dictionaries share is one row of `record`.
 */
module Permits {
  import opened Ledger
  import opened WaitQueue

  type ProofKey = nat

  datatype PoolKind = Llm | Native

  /** What a request asks of an engine, and what a pool is qualified for. */
  datatype Need = Need(kind: nat, model: nat, revision: Option<nat>, profile: nat, bound: nat, batch: nat)

  datatype Offer = Offer(kind: nat, model: nat, revision: nat, profile: nat, limit: nat, maxBatch: nat)

  datatype Request = Request(id: Id, tenant: TenantId, workload: Class, deadline: Time, dispatchBefore: Option<Time>,
                             expectedEpoch: Option<Epoch>, need: Need)

  datatype PoolView = PoolView(kind: PoolKind, transportLimit: nat, backgroundLimit: nat, hardCeiling: nat, target: nat,
                               healthy: bool, group: GroupId, groupHealthy: bool, groupCeiling: nat, epoch: Epoch,
                               offer: Offer)

  datatype PermitState = PReserved | PSendIntent | PUnknown | PFinished | PFailedNotSent | PFailedRecoverable

  /** `request` is absent for the permit of a durable attempt. */
  datatype Permit = Permit(request: Option<Request>, pool: PoolId, owner: OwnerId, workload: Class, epoch: Epoch,
                           direct: bool, generation: nat, state: PermitState, unknownAt: Option<Time>,
                           idleVerified: bool)

  /** What the last probe of a pool proved; a second one in a row settles. */
  datatype Streak = Streak(epoch: Epoch, key: ProofKey, since: Time, ids: set<AttemptId>)

  datatype Slots = Slots(pools: map<PoolId, PoolView>, record: map<AttemptId, Permit>, permits: set<AttemptId>,
                         direct: seq<AttemptId>, idle: map<PoolId, Streak>)

  predicate Live(s: PermitState) {
    s == PReserved || s == PSendIntent || s == PUnknown
  }

  /** Another attempt may follow one that ended so. */
  predicate Retryable(s: PermitState) {
    s == PFailedNotSent || s == PFailedRecoverable
  }

  // ---------------------------------------------------------------- capacity

  function Active(s: Slots, p: PoolId): set<AttemptId> {
    set a | a in s.permits && a in s.record && s.record[a].pool == p
  }

  function Working(s: Slots, p: PoolId): set<AttemptId> {
    set a | a in Active(s, p) && s.record[a].workload != Qa
  }

  function GroupActive(s: Slots, g: GroupId): set<AttemptId> {
    set a | a in s.permits && a in s.record && s.record[a].pool in s.pools
            && s.pools[s.record[a].pool].group == g && s.pools[s.record[a].pool].kind == Native
  }

  function EndpointLimit(v: PoolView): nat {
    if v.kind == Llm then v.transportLimit else if v.target <= v.hardCeiling then v.target else v.hardCeiling
  }

  /** `SlotCapacity.try_acquire`. */
  predicate TryAcquire(s: Slots, p: PoolId, c: Class) {
    && p in s.pools
    && var v := s.pools[p];
       && v.healthy && v.groupHealthy && v.target > 0
       && |Active(s, p)| < EndpointLimit(v)
       && (v.kind == Llm && c != Qa ==> |Working(s, p)| < v.backgroundLimit)
       && (v.kind == Native ==> |GroupActive(s, v.group)| < v.groupCeiling)
  }

  /** A class that is refused shuts out every class of the same or a lower rank. */
  lemma RefusalDescends(s: Slots, p: PoolId, c: Class, d: Class)
    requires !TryAcquire(s, p, c) && Rank(c) <= Rank(d)
    ensures !TryAcquire(s, p, d)
  {
  }

  /** Granting only the head wastes no capacity: when the head is refused, so is everyone behind it. */
  lemma HeadRefusedAllRefused(l: Lines, s: Slots, p: PoolId, now: Time, j: Id)
    requires WellFormed(l) && Honest(l, now) && Alive(l, p, now, j)
    ensures First(l, p, now).1.Some? && First(l, p, now).1.value in l.waiters
    ensures var head := l.waiters[First(l, p, now).1.value];
      !TryAcquire(s, p, head.workload) ==> !TryAcquire(s, p, l.waiters[j].workload)
  {
    FirstIsLeast(l, p, now);
    var head := l.waiters[First(l, p, now).1.value];
    if !TryAcquire(s, p, head.workload) {
      RefusalDescends(s, p, head.workload, l.waiters[j].workload);
    }
  }

  // ---------------------------------------------------------------- steps

  /** One probe of a pool: `proof` names the source and the attempts it proves not computing. */
  datatype Probe = Probe(pool: PoolId, epoch: Epoch, started: Time, proof: Option<(ProofKey, set<AttemptId>)>)

  datatype SlotStep =
    | Grant(a: AttemptId, permit: Permit)
    | MarkSend(a: AttemptId)
    | Finish(a: AttemptId, completed: bool)
    | Lose(a: AttemptId, now: Time)
    | Refresh(pool: PoolId, view: PoolView)
    | ProbeEnds(probe: Probe)
    | Forget(pools: set<PoolId>)
    | Sync(states: map<AttemptId, PermitState>, gone: set<AttemptId>)
    | Expire(gone: set<AttemptId>)

  predicate Granted(s: Slots, a: AttemptId, t: Permit) {
    a !in s.record && t.state == PReserved && !t.idleVerified && TryAcquire(s, t.pool, t.workload)
  }

  /** The guards under which the scheduler takes the step at all. */
  predicate Can(s: Slots, step: SlotStep) {
    match step
    case Grant(a, t) => Granted(s, a, t)
    case MarkSend(a) => a in s.direct && a in s.permits && a in s.record && s.record[a].state == PReserved
    case Finish(a, completed) => a in s.direct && a in s.record && !(completed && s.record[a].state == PReserved)
    case Lose(a, _) => a in s.direct
    case Refresh(_, _) => true
    case ProbeEnds(pr) => pr.pool in s.pools && s.pools[pr.pool].epoch == pr.epoch
    case Forget(ps) =>
      forall a :: a in s.permits && a in s.record && s.record[a].pool in ps ==> s.record[a].state != PUnknown
    case Sync(states, gone) => states.Keys !! Direct(s) && gone !! Direct(s)
    case Expire(gone) => gone !! s.permits
  }

  function Direct(s: Slots): set<AttemptId> {
    set a | a in s.direct
  }

  /** The direct permits of a pool whose engine epoch is over. */
  predicate Outlived(s: Slots, p: PoolId, epoch: Epoch, a: AttemptId) {
    a in s.permits && a in s.record && s.record[a].direct && s.record[a].pool == p && s.record[a].epoch != epoch
  }

  function OutlivedSet(s: Slots, p: PoolId, epoch: Epoch): set<AttemptId> {
    set a | a in s.permits && Outlived(s, p, epoch, a)
  }

  /** The row of a direct permit whose engine epoch is over. */
  function EpochEnded(t: Permit): Permit {
    t.(state := if t.state == PReserved then PFailedNotSent else PFailedRecoverable)
  }

  function EndAll(s: Slots, gone: set<AttemptId>): Slots {
    s.(record := map a | a in s.record :: if a in gone then EpochEnded(s.record[a]) else s.record[a],
       permits := s.permits - gone)
  }

  /** The part of `_refresh` that reads one pool again. */
  function Refreshed(s: Slots, p: PoolId, v: PoolView): Slots {
    var next := s.(pools := s.pools[p := v]);
    if p in s.pools && s.pools[p].epoch != v.epoch then EndAll(next, OutlivedSet(s, p, v.epoch)) else next
  }

  /** The direct permits two probes in a row prove idle. */
  predicate Idle(s: Slots, p: PoolId, epoch: Epoch, since: Time, ids: set<AttemptId>, a: AttemptId) {
    && a in s.permits && a in s.record && a in ids
    && var t := s.record[a];
       t.pool == p && t.state == PUnknown && t.direct && t.epoch == epoch && t.unknownAt.Some?
         && t.unknownAt.value < since
  }

  function IdleSet(s: Slots, p: PoolId, epoch: Epoch, since: Time, ids: set<AttemptId>): set<AttemptId> {
    set a | a in s.permits && Idle(s, p, epoch, since, ids, a)
  }

  function Recovered(t: Permit): Permit {
    t.(state := PFailedRecoverable, idleVerified := true)
  }

  function RecoverAll(s: Slots, gone: set<AttemptId>): Slots {
    s.(record := map a | a in s.record :: if a in gone then Recovered(s.record[a]) else s.record[a],
       permits := s.permits - gone)
  }

  /** The durable permits whose settlement the ledger is then asked for. */
  function DurableIdle(s: Slots, p: PoolId, ids: set<AttemptId>): set<AttemptId> {
    set a | a in s.permits && a in ids && a in s.record && s.record[a].pool == p && s.record[a].state == PUnknown
            && !s.record[a].direct
  }

  predicate Continues(s: Slots, pr: Probe) {
    && pr.proof.Some? && pr.pool in s.idle
    && s.idle[pr.pool].epoch == pr.epoch && s.idle[pr.pool].key == pr.proof.value.0
  }

  /** The attempts proven idle by this probe and, if it continues a streak, by the one before it. */
  function ProvenIds(s: Slots, pr: Probe): set<AttemptId>
    requires pr.proof.Some?
  {
    if Continues(s, pr) then s.idle[pr.pool].ids * pr.proof.value.1 else pr.proof.value.1
  }

  /** One turn of `_settle_idle_unknown`, after its probe. */
  function Probed(s: Slots, pr: Probe): Slots {
    var cleared := s.(idle := s.idle - {pr.pool});
    if pr.proof.None? || ProvenIds(s, pr) == {} then cleared
    else if !Continues(s, pr) then
      s.(idle := s.idle[pr.pool := Streak(pr.epoch, pr.proof.value.0, pr.started, ProvenIds(s, pr))])
    else RecoverAll(cleared, IdleSet(s, pr.pool, pr.epoch, s.idle[pr.pool].since, ProvenIds(s, pr)))
  }

  /** What the ledger is then asked to settle. */
  function HandedOn(s: Slots, pr: Probe): set<AttemptId> {
    if Continues(s, pr) then DurableIdle(s, pr.pool, ProvenIds(s, pr)) else {}
  }

  function Updated(s: Slots, a: AttemptId, t: Permit): Slots {
    s.(record := s.record[a := t])
  }

  function Step(s: Slots, step: SlotStep): Slots {
    match step
    case Grant(a, t) =>
      s.(record := s.record[a := t], permits := s.permits + {a},
         direct := if t.direct then s.direct + [a] else s.direct)
    case MarkSend(a) => if a in s.record then Updated(s, a, s.record[a].(state := PSendIntent)) else s
    case Finish(a, completed) =>
      if a !in s.permits || a !in s.record then s else
        Updated(s, a, s.record[a].(state := if completed then PFinished else PFailedNotSent))
        .(permits := s.permits - {a})
    case Lose(a, now) =>
      if a !in s.permits || a !in s.record then s else
        Updated(s, a, s.record[a].(state := PUnknown, unknownAt := Some(now)))
    case Refresh(p, v) => Refreshed(s, p, v)
    case ProbeEnds(pr) => Probed(s, pr)
    case Forget(ps) => s.(idle := s.idle - ps)
    case Sync(states, gone) =>
      s.(record := map a | a in s.record :: if a in states then s.record[a].(state := states[a]) else s.record[a],
         permits := s.permits - gone)
    case Expire(gone) => s.(direct := Keep(s.direct, gone))
  }

  function Keep(ids: seq<AttemptId>, gone: set<AttemptId>): (r: seq<AttemptId>)
    ensures forall a :: a in r <==> a in ids && a !in gone
  {
    if ids == [] then [] else (if ids[0] in gone then [] else [ids[0]]) + Keep(ids[1..], gone)
  }

  // ---------------------------------------------------------------- what every step keeps

  /** A direct attempt occupies a slot exactly while it is reserved, sent or uncertain. */
  predicate PermitRow(s: Slots, a: AttemptId) {
    && (a in s.permits ==> a in s.record)
    && (a in s.permits && s.record[a].direct ==> a in s.direct)
    && (a in s.direct ==> a in s.record && s.record[a].direct && (a in s.permits <==> Live(s.record[a].state)))
    && (a in s.direct && s.record[a].state == PUnknown ==> s.record[a].unknownAt.Some?)
  }

  ghost predicate SlotsOk(s: Slots) {
    forall a {:trigger PermitRow(s, a)} :: PermitRow(s, a)
  }

  lemma StepRow(s: Slots, step: SlotStep, a: AttemptId)
    requires Can(s, step) && PermitRow(s, a)
    ensures PermitRow(Step(s, step), a)
  {
  }

  lemma StepOk(s: Slots, step: SlotStep)
    requires SlotsOk(s) && Can(s, step)
    ensures SlotsOk(Step(s, step))
  {
    forall a ensures PermitRow(Step(s, step), a) {
      assert PermitRow(s, a);
      StepRow(s, step, a);
    }
  }

  // ---------------------------------------------------------------- capacity over runs

  predicate SameSlot(s: Slots, t: Slots, a: AttemptId) {
    a in s.record && a in t.record && t.record[a].pool == s.record[a].pool
      && t.record[a].workload == s.record[a].workload
  }

  /** No step but a grant adds a permit, and none moves one. */
  lemma StepSlots(s: Slots, step: SlotStep, a: AttemptId)
    requires SlotsOk(s) && Can(s, step) && a in Step(s, step).permits
    ensures if a in s.permits then SameSlot(s, Step(s, step), a) else step.Grant? && step.a == a
  {
    assert PermitRow(s, a);
  }

  function Max(x: nat, y: nat): nat { if x <= y then y else x }

  predicate GrantsTo(step: SlotStep, p: PoolId) {
    step.Grant? && step.permit.pool == p
  }

  /** The permits of a pool after a step are those before it, and one more if it was a grant to that pool. */
  lemma StepActive(s: Slots, step: SlotStep, p: PoolId, a: AttemptId)
    requires SlotsOk(s) && Can(s, step) && a in Active(Step(s, step), p)
    ensures (a in Active(s, p) && (a in Working(Step(s, step), p) ==> a in Working(s, p)))
      || (GrantsTo(step, p) && step.a == a && (a in Working(Step(s, step), p) ==> step.permit.workload != Qa))
  {
    StepSlots(s, step, a);
  }

  /** No step takes a pool above the limit in force, or further above it than it was. */
  lemma StepCapacity(s: Slots, step: SlotStep, p: PoolId)
    requires SlotsOk(s) && Can(s, step)
    ensures var t := Step(s, step);
      |Active(t, p)| <= |Active(s, p)| || (p in s.pools && |Active(t, p)| <= EndpointLimit(s.pools[p]))
  {
    var t := Step(s, step);
    forall a | a in Active(t, p) ensures a in Active(s, p) || (GrantsTo(step, p) && a == step.a) {
      StepActive(s, step, p, a);
    }
    SubsetSize(Active(t, p), if GrantsTo(step, p) then Active(s, p) + {step.a} else Active(s, p));
  }

  /** The same for the permits of an LLM pool that are not interactive. */
  lemma StepBackground(s: Slots, step: SlotStep, p: PoolId)
    requires SlotsOk(s) && Can(s, step) && (p in s.pools ==> s.pools[p].kind == Llm)
    ensures var t := Step(s, step);
      |Working(t, p)| <= |Working(s, p)| || (p in s.pools && |Working(t, p)| <= s.pools[p].backgroundLimit)
  {
    var t := Step(s, step);
    var grown := GrantsTo(step, p) && step.permit.workload != Qa;
    forall a | a in Working(t, p) ensures a in Working(s, p) || (grown && a == step.a) {
      StepActive(s, step, p, a);
    }
    SubsetSize(Working(t, p), if grown then Working(s, p) + {step.a} else Working(s, p));
  }

  /** A native pool of the group. */
  predicate InGroup(s: Slots, p: PoolId, g: GroupId) {
    p in s.pools && s.pools[p].group == g && s.pools[p].kind == Native
  }

  /** Every native row of the group has at most this ceiling. */
  ghost predicate Ceiled(s: Slots, g: GroupId, ceiling: nat) {
    forall p :: InGroup(s, p, g) ==> s.pools[p].groupCeiling <= ceiling
  }

  /** A pool that joins the group brings no permits. */
  ghost predicate JoinsEmpty(s: Slots, t: Slots, g: GroupId) {
    forall p :: InGroup(t, p, g) && !InGroup(s, p, g) ==> Active(s, p) == {}
  }

  lemma StepGroupActive(s: Slots, step: SlotStep, g: GroupId, a: AttemptId)
    requires SlotsOk(s) && Can(s, step) && JoinsEmpty(s, Step(s, step), g) && a in GroupActive(Step(s, step), g)
    ensures a in GroupActive(s, g) || (step.Grant? && step.a == a && InGroup(s, step.permit.pool, g))
  {
    var t := Step(s, step);
    StepSlots(s, step, a);
    var p := t.record[a].pool;
    assert InGroup(t, p, g);
    if a in s.permits {
      assert a in Active(s, p);
      assert InGroup(s, p, g);
    }
  }

  /** The native pools of a group stay within the group's ceiling, or no further above it than they were. */
  lemma StepGroupCapacity(s: Slots, step: SlotStep, g: GroupId, ceiling: nat)
    requires SlotsOk(s) && Can(s, step) && Ceiled(s, g, ceiling) && JoinsEmpty(s, Step(s, step), g)
    ensures |GroupActive(Step(s, step), g)| <= Max(ceiling, |GroupActive(s, g)|)
  {
    var t := Step(s, step);
    var grows := step.Grant? && InGroup(s, step.permit.pool, g);
    forall a | a in GroupActive(t, g) ensures a in GroupActive(s, g) || (grows && a == step.a) {
      StepGroupActive(s, step, g, a);
    }
    SubsetSize(GroupActive(t, g), if grows then GroupActive(s, g) + {step.a} else GroupActive(s, g));
  }

  /** What a starting scheduler holds: the permits it hydrated, and no direct attempt. */
  predicate Booted(s: Slots) {
    s.permits <= s.record.Keys && s.direct == [] && s.idle == map[] && forall a :: a in s.record ==> !s.record[a].direct
  }

  /** Step `k` leads from state `k` to the next. */
  predicate Taken(run: seq<Slots>, steps: seq<SlotStep>, k: nat) {
    k < |steps| && k + 1 < |run| && Can(run[k], steps[k]) && run[k + 1] == Step(run[k], steps[k])
  }

  ghost predicate IsSlotRun(run: seq<Slots>, steps: seq<SlotStep>) {
    && |run| == |steps| + 1
    && Booted(run[0])
    && (forall k: nat {:trigger Taken(run, steps, k)} :: k < |steps| ==> Taken(run, steps, k))
    // One task probes, on one clock.
    && (forall j, k :: 0 <= j < k < |steps| && steps[j].ProbeEnds? && steps[k].ProbeEnds?
          ==> steps[j].probe.started <= steps[k].probe.started)
    && (forall j, k :: 0 <= j < k < |steps| && steps[j].ProbeEnds? && steps[k].Lose?
          ==> steps[j].probe.started <= steps[k].now)
  }

  lemma {:induction false} SlotRunOk(run: seq<Slots>, steps: seq<SlotStep>, k: nat)
    requires IsSlotRun(run, steps) && k < |run|
    ensures SlotsOk(run[k])
    decreases k
  {
    if k > 0 {
      SlotRunOk(run, steps, k - 1);
      assert Taken(run, steps, k - 1);
      StepOk(run[k - 1], steps[k - 1]);
    }
  }

  /** A direct attempt is among the permits exactly while it is reserved, sent or uncertain. */
  lemma DirectHoldsWhileLive(run: seq<Slots>, steps: seq<SlotStep>, k: nat, a: AttemptId)
    requires IsSlotRun(run, steps) && k < |run| && a in run[k].direct
    ensures a in run[k].record && (a in run[k].permits <==> Live(run[k].record[a].state))
  {
    SlotRunOk(run, steps, k);
    assert PermitRow(run[k], a);
  }

  /** Whenever the pool is configured, it is so with at most this limit. */
  ghost predicate LimitedTo(run: seq<Slots>, p: PoolId, limit: nat, k: nat) {
    forall j :: 0 <= j < k && j < |run| && p in run[j].pools ==> EndpointLimit(run[j].pools[p]) <= limit
  }

  ghost predicate BackgroundLimitedTo(run: seq<Slots>, p: PoolId, limit: nat, k: nat) {
    forall j :: 0 <= j < k && j < |run| && p in run[j].pools ==>
      run[j].pools[p].kind == Llm && run[j].pools[p].backgroundLimit <= limit
  }

  ghost predicate GroupLimitedTo(run: seq<Slots>, g: GroupId, ceiling: nat, k: nat) {
    forall j :: 0 <= j < k && j + 1 < |run| ==> Ceiled(run[j], g, ceiling) && JoinsEmpty(run[j], run[j + 1], g)
  }

  /**
   A pool never holds more permits, uncertain ones counted, than the highest limit
   it had or a restart hydrated, while health, epoch and target change freely.
   */
  lemma {:induction false} CapacityHolds(run: seq<Slots>, steps: seq<SlotStep>, k: nat, p: PoolId, limit: nat)
    requires IsSlotRun(run, steps) && k < |run| && LimitedTo(run, p, limit, k)
    ensures |Active(run[k], p)| <= Max(limit, |Active(run[0], p)|)
    decreases k
  {
    if k > 0 {
      CapacityHolds(run, steps, k - 1, p, limit);
      SlotRunOk(run, steps, k - 1);
      assert Taken(run, steps, k - 1);
      StepCapacity(run[k - 1], steps[k - 1], p);
    }
  }

  /** The same for the permits of an LLM pool that are not interactive, and its background limit. */
  lemma {:induction false} BackgroundHolds(run: seq<Slots>, steps: seq<SlotStep>, k: nat, p: PoolId, limit: nat)
    requires IsSlotRun(run, steps) && k < |run| && BackgroundLimitedTo(run, p, limit, k)
    ensures |Working(run[k], p)| <= Max(limit, |Working(run[0], p)|)
    decreases k
  {
    if k > 0 {
      BackgroundHolds(run, steps, k - 1, p, limit);
      SlotRunOk(run, steps, k - 1);
      assert Taken(run, steps, k - 1);
      StepBackground(run[k - 1], steps[k - 1], p);
    }
  }

  /** The same for the native pools of a group, as long as pools join it without permits. */
  lemma {:induction false} GroupCapacityHolds(run: seq<Slots>, steps: seq<SlotStep>, k: nat, g: GroupId, ceiling: nat)
    requires IsSlotRun(run, steps) && k < |run| && GroupLimitedTo(run, g, ceiling, k)
    ensures |GroupActive(run[k], g)| <= Max(ceiling, |GroupActive(run[0], g)|)
    decreases k
  {
    if k > 0 {
      GroupCapacityHolds(run, steps, k - 1, g, ceiling);
      SlotRunOk(run, steps, k - 1);
      assert Taken(run, steps, k - 1);
      assert Ceiled(run[k - 1], g, ceiling) && JoinsEmpty(run[k - 1], run[k], g);
      StepGroupCapacity(run[k - 1], steps[k - 1], g, ceiling);
    }
  }

  // ---------------------------------------------------------------- how a sent attempt gives its slot back

  /** No probe of pool `p` ended in steps `j + 1` to `k - 1`. */
  predicate Quiet(steps: seq<SlotStep>, p: PoolId, j: nat, k: nat)
    requires k <= |steps|
  {
    forall i :: j < i < k ==> !(steps[i].ProbeEnds? && steps[i].probe.pool == p)
  }

  /** Step `j` is the last probe of `p` before step `k`, and it proved all that the streak of `p` says. */
  predicate Backs(steps: seq<SlotStep>, p: PoolId, streak: Streak, j: nat, k: nat)
    requires k <= |steps|
  {
    && j < k && steps[j].ProbeEnds? && Quiet(steps, p, j, k)
    && var pr := steps[j].probe;
       && pr.pool == p && pr.epoch == streak.epoch && pr.started == streak.since
       && pr.proof.Some? && pr.proof.value.0 == streak.key && streak.ids <= pr.proof.value.1
  }

  /** Every streak the scheduler keeps comes from the last probe of its pool. */
  lemma {:induction false} StreakBacked(run: seq<Slots>, steps: seq<SlotStep>, k: nat, p: PoolId) returns (j: nat)
    requires IsSlotRun(run, steps) && k < |run| && p in run[k].idle
    ensures Backs(steps, p, run[k].idle[p], j, k)
    decreases k
  {
    assert k > 0;
    assert Taken(run, steps, k - 1);
    if steps[k - 1].ProbeEnds? && steps[k - 1].probe.pool == p {
      j := k - 1;
    } else {
      j := StreakBacked(run, steps, k - 1, p);
    }
  }

  /** Two probes in a row, of one epoch and one source, began after the attempt was lost and found it idle. */
  ghost predicate TwoProbes(steps: seq<SlotStep>, k: nat, a: AttemptId, t: Permit)
    requires k < |steps|
  {
    && steps[k].ProbeEnds? && t.state == PUnknown && t.unknownAt.Some?
    && exists j: nat ::
      && j < k && steps[j].ProbeEnds? && Quiet(steps, t.pool, j, k)
      && var x, y := steps[j].probe, steps[k].probe;
         && x.pool == y.pool == t.pool && x.epoch == y.epoch == t.epoch
         && x.proof.Some? && y.proof.Some? && x.proof.value.0 == y.proof.value.0
         && a in x.proof.value.1 && a in y.proof.value.1
         && t.unknownAt.value < x.started <= y.started
  }

  /**
   A direct attempt that was sent gives its slot back only on a completed
   response, on evidence that it was not sent, when its engine epoch is over, or
   when two probes in a row prove it idle.
   */
  lemma SentKeepsSlot(run: seq<Slots>, steps: seq<SlotStep>, k: nat, a: AttemptId)
    requires IsSlotRun(run, steps) && k < |steps| && a in run[k].permits && a in run[k].direct
    requires a in run[k].record && run[k].record[a].state != PReserved
    ensures a in run[k + 1].permits
      || (steps[k].Finish? && steps[k].a == a)
      || (steps[k].Refresh? && steps[k].pool == run[k].record[a].pool && steps[k].view.epoch != run[k].record[a].epoch)
      || TwoProbes(steps, k, a, run[k].record[a])
  {
    var s, step := run[k], steps[k];
    SlotRunOk(run, steps, k);
    assert Taken(run, steps, k) && PermitRow(s, a);
    if a !in run[k + 1].permits && step.ProbeEnds? {
      var pr := step.probe;
      assert Continues(s, pr) && Idle(s, pr.pool, pr.epoch, s.idle[pr.pool].since, ProvenIds(s, pr), a);
      var j := StreakBacked(run, steps, k, pr.pool);
      assert a in steps[j].probe.proof.value.1;
      assert TwoProbes(steps, k, a, s.record[a]);
    }
  }

  /** Probe `j` begins a streak: there is none of its epoch and source that it would continue. */
  predicate Begins(s: Slots, x: Probe) {
    x.proof.Some? && !(x.pool in s.idle && s.idle[x.pool].epoch == x.epoch && s.idle[x.pool].key == x.proof.value.0)
  }

  /** The two probes of a pool, of one epoch and one source, that both find the attempt idle, with none between. */
  predicate BothFindIdle(steps: seq<SlotStep>, j: nat, k: nat, a: AttemptId) {
    && j < k < |steps| && steps[j].ProbeEnds? && steps[k].ProbeEnds?
    && var x, y := steps[j].probe, steps[k].probe;
       && x.pool == y.pool && x.epoch == y.epoch && Quiet(steps, x.pool, j, k)
       && x.proof.Some? && y.proof.Some? && x.proof.value.0 == y.proof.value.0
       && a in x.proof.value.1 && a in y.proof.value.1
  }

  /** The attempt is uncertain in states `j` to `k`. */
  predicate UncertainIn(run: seq<Slots>, j: nat, k: nat, a: AttemptId) {
    forall i :: j <= i <= k && i < |run|
        ==> a in run[i].permits && a in run[i].record && run[i].record[a].state == PUnknown
  }

  /** The streak that probe `j` began is there until the next probe, as long as an attempt of the pool is uncertain. */
  lemma {:induction false} StreakStays(run: seq<Slots>, steps: seq<SlotStep>, j: nat, k: nat, a: AttemptId)
    requires IsSlotRun(run, steps) && j < k < |run| && steps[j].ProbeEnds? && Begins(run[j], steps[j].probe)
    requires var x := steps[j].probe;
      a in x.proof.value.1 && Quiet(steps, x.pool, j, k) && UncertainIn(run, j + 1, k, a)
      && (forall i :: j < i <= k ==> a in run[i].record && run[i].record[a].pool == x.pool)
    ensures var x := steps[j].probe;
      x.pool in run[k].idle && run[k].idle[x.pool] == Streak(x.epoch, x.proof.value.0, x.started, x.proof.value.1)
    decreases k
  {
    assert Taken(run, steps, k - 1);
    if k - 1 > j {
      StreakStays(run, steps, j, k - 1, a);
      assert a in run[k - 1].permits;
    }
  }

  /** No step but a loss makes a row uncertain, and none moves it to another pool. */
  lemma StepUncertain(s: Slots, step: SlotStep, a: AttemptId)
    requires SlotsOk(s) && Can(s, step) && a in Step(s, step).permits && a in Step(s, step).direct
    requires a in Step(s, step).record && Step(s, step).record[a].state == PUnknown
    ensures (a in s.permits && a in s.direct && a in s.record && s.record[a] == Step(s, step).record[a])
      || (step.Lose? && step.a == a && Step(s, step).record[a].unknownAt == Some(step.now))
  {
    assert PermitRow(s, a);
  }

  /** An attempt lost before probe `j` began has been uncertain ever since. */
  lemma {:induction false} UncertainSince(run: seq<Slots>, steps: seq<SlotStep>, j: nat, k: nat, a: AttemptId)
    requires IsSlotRun(run, steps) && j < k < |run| && steps[j].ProbeEnds?
    requires a in run[k].permits && a in run[k].direct && a in run[k].record && run[k].record[a].state == PUnknown
    requires run[k].record[a].unknownAt.Some? && run[k].record[a].unknownAt.value < steps[j].probe.started
    ensures forall i :: j < i <= k ==>
      a in run[i].permits && a in run[i].direct && a in run[i].record && run[i].record[a] == run[k].record[a]
    decreases k
  {
    if k - 1 > j {
      SlotRunOk(run, steps, k - 1);
      assert Taken(run, steps, k - 1);
      StepUncertain(run[k - 1], steps[k - 1], a);
      UncertainSince(run, steps, j, k - 1, a);
    }
  }

  /**
   Two probes in a row settle: a direct attempt that was lost before the first of
   them began, and that both find idle, gives its slot back and may be recovered.
   */
  lemma TwoProbesSettle(run: seq<Slots>, steps: seq<SlotStep>, j: nat, k: nat, a: AttemptId)
    requires IsSlotRun(run, steps) && BothFindIdle(steps, j, k, a) && Begins(run[j], steps[j].probe)
    requires a in run[k].permits && a in run[k].direct && a in run[k].record
    requires var t, x := run[k].record[a], steps[j].probe;
      t.state == PUnknown && t.unknownAt.Some? && t.unknownAt.value < x.started && t.pool == x.pool
        && t.epoch == x.epoch
    ensures a !in run[k + 1].permits && a in run[k + 1].record
    ensures run[k + 1].record[a].state == PFailedRecoverable && run[k + 1].record[a].idleVerified
  {
    SlotRunOk(run, steps, k);
    assert Taken(run, steps, k) && PermitRow(run[k], a);
    UncertainSince(run, steps, j, k, a);
    StreakStays(run, steps, j, k, a);
    var y := steps[k].probe;
    assert a in ProvenIds(run[k], y);
    assert Idle(run[k], y.pool, y.epoch, steps[j].probe.started, ProvenIds(run[k], y), a);
  }

  /** And a durable attempt that was uncertain since the first of them ended is handed to the ledger. */
  lemma TwoProbesHandOn(run: seq<Slots>, steps: seq<SlotStep>, j: nat, k: nat, a: AttemptId)
    requires IsSlotRun(run, steps) && BothFindIdle(steps, j, k, a) && Begins(run[j], steps[j].probe)
    requires UncertainIn(run, j + 1, k, a) && a in run[k].record && !run[k].record[a].direct
    requires forall i :: j < i <= k ==> a in run[i].record && run[i].record[a].pool == steps[j].probe.pool
    ensures a in HandedOn(run[k], steps[k].probe)
    ensures run[k].idle[steps[k].probe.pool].since == steps[j].probe.started
  {
    StreakStays(run, steps, j, k, a);
    assert run[k].record[a].state == PUnknown;
    assert a in ProvenIds(run[k], steps[k].probe);
  }

  /** The durable attempts a second probe hands to the ledger were found idle by both probes, since the same moment. */
  lemma DurableIdleProven(run: seq<Slots>, steps: seq<SlotStep>, k: nat, a: AttemptId) returns (j: nat)
    requires IsSlotRun(run, steps) && k < |steps| && steps[k].ProbeEnds? && a in HandedOn(run[k], steps[k].probe)
    ensures j < k && steps[j].ProbeEnds? && Quiet(steps, steps[k].probe.pool, j, k)
    ensures steps[k].probe.pool in run[k].idle && a in run[k].permits && a in run[k].record
    ensures run[k].record[a].state == PUnknown && !run[k].record[a].direct
    ensures var x, y := steps[j].probe, steps[k].probe;
      && x.pool == y.pool == run[k].record[a].pool && x.epoch == y.epoch
        && x.started == run[k].idle[y.pool].since <= y.started
      && x.proof.Some? && y.proof.Some? && a in x.proof.value.1 && a in y.proof.value.1
  {
    j := StreakBacked(run, steps, k, steps[k].probe.pool);
  }
}
