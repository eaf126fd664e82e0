/** The epochs of attempts and pools: when the epoch of an attempt that holds compute is that of its pool. */
module LedgerEpochs {
  // Sending does not look at the epoch of the pool.  This is the only way in which
  // an attempt comes to hold compute on an epoch that is not its pool's, and no
  // transaction without its owner takes such an attempt out of that state.

  import opened Ledger
  import opened LedgerInvariant
  import opened LedgerRecovery
  import opened LedgerRuns
  import opened LedgerSteps

  /** The attempt was made for the epoch its pool is on. */
  predicate Current(db: Ledger, a: Attempt) {
    a.pool in db.pools && db.pools[a.pool].epoch == a.epoch
  }

  predicate HeldRow(db: Ledger, i: AttemptId) {
    i < |db.attempts| && (db.attempts[i].computeHeld ==> Current(db, db.attempts[i]))
  }

  /** Every attempt that holds compute is on its pool's epoch. */
  ghost predicate HeldCurrent(db: Ledger) {
    forall i {:trigger HeldRow(db, i)} :: 0 <= i < |db.attempts| ==> HeldRow(db, i)
  }

  /** A send that commits for an attempt of another epoch than its pool's. */
  predicate LateSend(db: Ledger, c: Command, now: Time) {
    && c.DoMarkSend? && MarkSend(db, c.res, now).Commit?
    && !Current(db, db.attempts[c.res.attempt])
  }

  // ---------------------------------------------------------------- transactions that leave attempts alone

  lemma SameAttempts(db: Ledger, c: Command, now: Time)
    requires !OwnerCall(c) && !c.DoReserve? && !c.DoReconcile? && !c.DoSettleLost? && !c.DoConfirmStopped?
      && !c.DoSettleIdle?
    ensures Apply(db, c, now).attempts == db.attempts
  {
    match c {
      case DoFinishRun(r, tenant, state, result, why, at) =>
        FinishRunKeeps(db, r, tenant, state, result, why, now, at);
      case _ =>
    }
  }

  lemma CancelKeeps(db: Ledger, r: RootId, tenant: TenantId)
    ensures After(db, Cancel(db, r, tenant)).attempts == db.attempts
    ensures After(db, Cancel(db, r, tenant)).pools == db.pools
  {
  }

  lemma FinishRunningKeeps(db: Ledger, r: RootId, state: RunState, result: Option<Blob>, why: Why, now: Time, at: Time)
    requires r in db.roots
    ensures After(db, FinishRunning(db, r, state, result, why, now, at)).attempts == db.attempts
    ensures After(db, FinishRunning(db, r, state, result, why, now, at)).pools == db.pools
  {
  }

  /** Ending a run touches neither attempts nor pools. */
  lemma FinishRunKeeps(db: Ledger, r: RootId, tenant: TenantId, state: RunState, result: Option<Blob>, why: Why,
                       now: Time, at: Time)
    ensures After(db, FinishRun(db, r, tenant, state, result, why, now, at)).attempts == db.attempts
    ensures After(db, FinishRun(db, r, tenant, state, result, why, now, at)).pools == db.pools
  {
    CancelKeeps(db, r, tenant);
    if r in db.roots {
      FinishRunningKeeps(db, r, state, result, why, now, at);
    }
  }

  lemma OwnerCallElsewhere(db: Ledger, c: Command, now: Time, i: AttemptId)
    requires OwnerCall(c) && i < |db.attempts| && i != c.res.attempt
    ensures |Apply(db, c, now).attempts| == |db.attempts| && Apply(db, c, now).attempts[i] == db.attempts[i]
  {
  }

  lemma ConsiderAttempts(db: Ledger, pool: PoolId, owner: OwnerId, o: OpId, now: Time)
    requires pool in db.pools
    ensures match Consider(db, pool, owner, o, now)
            case Skip(next) => next.attempts == db.attempts
            case Take(next, _) =>
              |next.attempts| == |db.attempts| + 1 && next.attempts[..|db.attempts|] == db.attempts
              && next.attempts[|db.attempts|].state == Reserved && !next.attempts[|db.attempts|].computeHeld
  {
  }

  lemma {:induction false} ScanAttempts(db: Ledger, pool: PoolId, owner: OwnerId, candidates: seq<OpId>, now: Time)
    requires pool in db.pools
    ensures var r := Scan(db, pool, owner, candidates, now);
      r.0.pools == db.pools
      && if r.1.None? then r.0.attempts == db.attempts
         else |r.0.attempts| == |db.attempts| + 1 && r.0.attempts[..|db.attempts|] == db.attempts
              && r.0.attempts[|db.attempts|].state == Reserved && !r.0.attempts[|db.attempts|].computeHeld
    decreases |candidates|
  {
    if candidates != [] {
      ConsiderAttempts(db, pool, owner, candidates[0], now);
      match Consider(db, pool, owner, candidates[0], now)
      case Take(_, _) =>
      case Skip(next) => ScanAttempts(next, pool, owner, candidates[1..], now);
    }
  }

  lemma ReserveKeeps(db: Ledger, p: PoolId, owner: OwnerId, candidates: seq<OpId>, now: Time, i: AttemptId)
    requires i < |db.attempts|
    ensures var next := ReserveNext(db, p, owner, candidates, now).0;
      i < |next.attempts| && next.attempts[i] == db.attempts[i]
  {
    if p in db.pools {
      ScanAttempts(db, p, owner, candidates, now);
      assert Scan(db, p, owner, candidates, now).0.attempts[..|db.attempts|] == db.attempts;
    }
  }

  // ---------------------------------------------------------------- what one transaction does to a row

  /** The attempt stays on its pool and epoch and does not come to hold compute. */
  predicate Sheds(a: Attempt, b: Attempt) {
    b.pool == a.pool && b.epoch == a.epoch && (b.computeHeld ==> a.computeHeld)
  }

  predicate EpochKept(db: Ledger, next: Ledger, p: PoolId) {
    p in db.pools ==> p in next.pools && next.pools[p].epoch == db.pools[p].epoch
  }

  lemma ReconcileAttemptSheds(db: Ledger, seen: Ledger, j: AttemptId, now: Time, i: AttemptId)
    requires i < |db.attempts|
    ensures Sheds(db.attempts[i], ReconcileAttempt(db, seen, j, now).attempts[i])
  {
  }

  lemma {:induction false} ReconcileLoopSheds(db: Ledger, k: nat, now: Time, i: AttemptId)
    requires k <= |db.attempts| && i < |db.attempts|
    ensures Sheds(db.attempts[i], ReconcileAttempts(db, db, k, now).attempts[i])
  {
    if k > 0 {
      ReconcileLoopSheds(db, k - 1, now, i);
      ReconcileAttemptSheds(ReconcileAttempts(db, db, k - 1, now), db, k - 1, now, i);
    }
  }

  lemma ReconcileRows(db: Ledger, page: set<OpId>, now: Time)
    ensures |Reconcile(db, page, now).attempts| == |db.attempts|
  {
  }

  lemma ReconcileSheds(db: Ledger, page: set<OpId>, now: Time, i: AttemptId)
    requires i < |db.attempts|
    ensures i < |Reconcile(db, page, now).attempts|
    ensures Sheds(db.attempts[i], Reconcile(db, page, now).attempts[i])
  {
    var db1 := TerminateAll(db, ExpiredOps(db, now), OpFailed, OperationDeadline);
    ReconcileRows(db, page, now);
    ReconcileLoopSheds(db1, |db1.attempts|, now, i);
  }

  lemma SettleProvenAtKeeps(db: Ledger, seen: Attempt, j: AttemptId, p: PoolId, epoch: Epoch, e: Evidence, now: Time,
                            q: PoolId)
    ensures EpochKept(db, SettleProvenAt(db, seen, j, p, epoch, e, now), q)
    ensures forall i :: 0 <= i < |db.attempts| ==>
      Sheds(db.attempts[i], SettleProvenAt(db, seen, j, p, epoch, e, now).attempts[i])
  {
  }

  lemma {:induction false} SettleProvenKeeps(db: Ledger, seen: seq<Attempt>, p: PoolId, epoch: Epoch, e: Evidence,
                                             k: nat, now: Time, q: PoolId)
    requires k <= |seen| == |db.attempts|
    ensures EpochKept(db, SettleProven(db, seen, p, epoch, e, k, now), q)
    ensures forall i :: 0 <= i < |db.attempts| ==>
      Sheds(db.attempts[i], SettleProven(db, seen, p, epoch, e, k, now).attempts[i])
    decreases k
  {
    if k > 0 {
      SettleProvenKeeps(db, seen, p, epoch, e, k - 1, now, q);
      SettleProvenAtKeeps(SettleProven(db, seen, p, epoch, e, k - 1, now), seen[k - 1], k - 1, p, epoch, e, now, q);
    }
  }

  lemma EvidenceKeeps(db: Ledger, c: Command, now: Time, q: PoolId)
    requires c.DoConfirmStopped? || c.DoSettleIdle?
    ensures var next := Apply(db, c, now);
      |next.attempts| == |db.attempts| && EpochKept(db, next, q)
      && forall i :: 0 <= i < |db.attempts| ==> Sheds(db.attempts[i], next.attempts[i])
  {
    match c {
      case DoConfirmStopped(p, epoch, recover) =>
        if p in db.pools && db.pools[p].epoch == epoch {
          var closed := db.(pools := db.pools[p := db.pools[p].(target := 0, health := Unavailable)]);
          SettleProvenKeeps(closed, db.attempts, p, epoch, EpochStopped(recover), |db.attempts|, now, q);
        }
      case DoSettleIdle(p, epoch, since, ids) =>
        SettleProvenKeeps(db, db.attempts, p, epoch, IdleSince(since, ids), |db.attempts|, now, q);
    }
  }

  lemma OwnerCallSheds(db: Ledger, c: Command, now: Time)
    requires OwnerCall(c) && c.res.attempt < |db.attempts|
    ensures var a, next := db.attempts[c.res.attempt], Apply(db, c, now);
      |next.attempts| == |db.attempts|
      && (if c.DoMarkSend? && MarkSend(db, c.res, now).Commit? then next.attempts[c.res.attempt] == SentAttempt(a)
          else Sheds(a, next.attempts[c.res.attempt]))
  {
  }

  lemma OwnerCallRows(db: Ledger, c: Command, now: Time)
    requires OwnerCall(c)
    ensures |Apply(db, c, now).attempts| == |db.attempts|
  {
  }

  lemma OwnerCallPools(db: Ledger, c: Command, now: Time, q: PoolId)
    requires OwnerCall(c)
    ensures EpochKept(db, Apply(db, c, now), q)
  {
  }

  /** Only a send makes a row hold compute. */
  lemma ApplySheds(db: Ledger, c: Command, now: Time, i: AttemptId)
    requires i < |db.attempts| && !(c.DoMarkSend? && MarkSend(db, c.res, now).Commit? && i == c.res.attempt)
    ensures i < |Apply(db, c, now).attempts| && Sheds(db.attempts[i], Apply(db, c, now).attempts[i])
  {
    if OwnerCall(c) {
      if i == c.res.attempt {
        OwnerCallSheds(db, c, now);
      } else {
        OwnerCallElsewhere(db, c, now, i);
      }
    } else if c.DoReserve? {
      ReserveKeeps(db, c.pool, c.owner, c.candidates, now, i);
    } else if c.DoReconcile? {
      ReconcileSheds(db, c.page, now, i);
    } else if c.DoConfirmStopped? || c.DoSettleIdle? {
      EvidenceKeeps(db, c, now, 0);
    } else if !c.DoSettleLost? {
      SameAttempts(db, c, now);
    }
  }

  /** A new row holds no compute. */
  lemma NewRowUnheld(db: Ledger, c: Command, now: Time, i: AttemptId)
    requires |db.attempts| <= i < |Apply(db, c, now).attempts|
    ensures !Apply(db, c, now).attempts[i].computeHeld
  {
    if OwnerCall(c) {
      OwnerCallRows(db, c, now);
    } else if c.DoReserve? {
      if c.pool in db.pools {
        ScanAttempts(db, c.pool, c.owner, c.candidates, now);
      }
    } else if c.DoReconcile? {
      ReconcileRows(db, c.page, now);
    } else if !c.DoSettleLost? && !c.DoConfirmStopped? && !c.DoSettleIdle? {
      SameAttempts(db, c, now);
    }
  }

  lemma SettlementEpochs(db: Ledger, c: Command, now: Time, q: PoolId)
    requires c.DoReconcile? || c.DoSettleLost? || c.DoConfirmStopped? || c.DoSettleIdle?
    ensures EpochKept(db, Apply(db, c, now), q)
  {
    match c {
      case DoReconcile(page) => ReconcileEpochs(db, page, now);
      case DoSettleLost(i) => StopEpochs(db, i, now);
      case _ => EvidenceKeeps(db, c, now, q);
    }
  }

  /** Only a reconfiguration moves the epoch of a pool. */
  lemma ApplyEpochs(db: Ledger, c: Command, now: Time, q: PoolId)
    requires !c.DoConfigurePool?
    ensures EpochKept(db, Apply(db, c, now), q)
  {
    if OwnerCall(c) {
      OwnerCallPools(db, c, now, q);
    } else if c.DoReconcile? || c.DoSettleLost? || c.DoConfirmStopped? || c.DoSettleIdle? {
      SettlementEpochs(db, c, now, q);
    } else if c.DoReserve? {
      if c.pool in db.pools { ScanAttempts(db, c.pool, c.owner, c.candidates, now); }
    } else {
      match c
      case DoFinishRun(r, tenant, state, result, why, at) =>
        FinishRunKeeps(db, r, tenant, state, result, why, now, at);
      case _ =>
    }
  }

  // ---------------------------------------------------------------- exactly a late send breaks it

  lemma ReconfigureRow(db: Ledger, p: PoolId, spec: PoolSpec, epoch: Epoch, i: AttemptId)
    requires HeldRow(db, i)
    ensures HeldRow(After(db, ConfigurePool(db, p, spec, epoch)), i)
  {
  }

  lemma SendRow(db: Ledger, res: Reservation, now: Time, i: AttemptId)
    requires HeldRow(db, i) && MarkSend(db, res, now).Commit?
    ensures HeldRow(MarkSend(db, res, now).db, i) <==>
      (i != res.attempt || Current(db, db.attempts[res.attempt]))
  {
  }

  lemma KeptRow(db: Ledger, c: Command, now: Time, i: AttemptId)
    requires HeldCurrent(db) && !LateSend(db, c, now) && i < |Apply(db, c, now).attempts|
    ensures HeldRow(Apply(db, c, now), i)
  {
    if i >= |db.attempts| {
      NewRowUnheld(db, c, now, i);
    } else {
      assert HeldRow(db, i);
      match c
      case DoConfigurePool(p, spec, epoch) => ReconfigureRow(db, p, spec, epoch, i);
      case DoMarkSend(res) =>
        if MarkSend(db, res, now).Commit? { SendRow(db, res, now, i); }
      case _ =>
        ApplySheds(db, c, now, i);
        ApplyEpochs(db, c, now, db.attempts[i].pool);
    }
  }

  /** A transaction keeps every held attempt on its pool's epoch if and only if it is no late send. */
  lemma HeldCurrentIff(db: Ledger, c: Command, now: Time)
    requires HeldCurrent(db)
    ensures HeldCurrent(Apply(db, c, now)) <==> !LateSend(db, c, now)
  {
    if LateSend(db, c, now) {
      assert HeldRow(db, c.res.attempt);
      SendRow(db, c.res, now, c.res.attempt);
      assert !HeldRow(Apply(db, c, now), c.res.attempt);
    } else {
      forall i | 0 <= i < |Apply(db, c, now).attempts| ensures HeldRow(Apply(db, c, now), i) {
        KeptRow(db, c, now, i);
      }
    }
  }

  /** Transaction `k` leads from ledger `k` to the next; no promise of the caller is asked for. */
  predicate Applied(run: seq<Ledger>, cs: seq<Command>, times: seq<Time>, k: nat) {
    k < |cs| && k < |times| && k + 1 < |run| && run[k + 1] == Apply(run[k], cs[k], times[k])
  }

  ghost predicate IsSequence(run: seq<Ledger>, cs: seq<Command>, times: seq<Time>) {
    && |run| == |cs| + 1 == |times| + 1
    && forall k: nat {:trigger Applied(run, cs, times, k)} :: k < |cs| ==> Applied(run, cs, times, k)
  }

  predicate LateAt(run: seq<Ledger>, cs: seq<Command>, times: seq<Time>, k: nat) {
    k < |run| && k < |cs| && k < |times| && LateSend(run[k], cs[k], times[k])
  }

  lemma {:induction false} NoLateSend(run: seq<Ledger>, cs: seq<Command>, times: seq<Time>, k: nat)
    requires IsSequence(run, cs, times) && run[0].attempts == [] && k < |run|
    requires forall j: nat :: j < k ==> !LateAt(run, cs, times, j)
    ensures HeldCurrent(run[k])
    decreases k
  {
    if k > 0 {
      NoLateSend(run, cs, times, k - 1);
      assert Applied(run, cs, times, k - 1) && !LateAt(run, cs, times, k - 1);
      HeldCurrentIff(run[k - 1], cs[k - 1], times[k - 1]);
    }
  }

  /**
   Over any transactions from an empty attempt table, every attempt that holds
   compute is always on its pool's epoch if and only if no send is late.
   */
  lemma HeldCurrentRuns(run: seq<Ledger>, cs: seq<Command>, times: seq<Time>)
    requires IsSequence(run, cs, times) && run[0].attempts == []
    ensures (forall k: nat :: k < |run| ==> HeldCurrent(run[k])) <==>
      (forall k: nat :: k < |cs| ==> !LateAt(run, cs, times, k))
  {
    if forall k: nat :: k < |run| ==> HeldCurrent(run[k]) {
      forall k: nat | k < |cs| ensures !LateAt(run, cs, times, k) {
        assert Applied(run, cs, times, k) && HeldCurrent(run[k]) && HeldCurrent(run[k + 1]);
        HeldCurrentIff(run[k], cs[k], times[k]);
      }
    }
    if forall k: nat :: k < |cs| ==> !LateAt(run, cs, times, k) {
      forall k: nat | k < |run| ensures HeldCurrent(run[k]) {
        NoLateSend(run, cs, times, k);
      }
    }
  }

  // ---------------------------------------------------------------- and only the owner mends it

  /** The attempt holds compute on an epoch its pool has left. */
  predicate Outdated(db: Ledger, i: AttemptId) {
    && i < |db.attempts| && db.attempts[i].computeHeld
    && db.attempts[i].pool in db.pools && db.pools[db.attempts[i].pool].epoch != db.attempts[i].epoch
  }

  lemma {:induction false} ReconcileLoopHolds(db: Ledger, k: nat, now: Time, i: AttemptId)
    requires k <= |db.attempts| && i < |db.attempts| && db.attempts[i].computeHeld && db.attempts[i].state != Reserved
    ensures var b := ReconcileAttempts(db, db, k, now).attempts[i]; b.computeHeld && b.state != Reserved
  {
    if k > 0 {
      ReconcileLoopHolds(db, k - 1, now, i);
    }
  }

  lemma ReconcileHolds(db: Ledger, page: set<OpId>, now: Time, i: AttemptId)
    requires i < |db.attempts| && db.attempts[i].computeHeld && db.attempts[i].state != Reserved
    ensures i < |Reconcile(db, page, now).attempts| && Reconcile(db, page, now).attempts[i].computeHeld
  {
    var db1 := TerminateAll(db, ExpiredOps(db, now), OpFailed, OperationDeadline);
    ReconcileRows(db, page, now);
    ReconcileLoopHolds(db1, |db1.attempts|, now, i);
  }

  lemma EvidenceHolds(db: Ledger, c: Command, now: Time, i: AttemptId)
    requires Inv(db) && Outdated(db, i) && (c.DoConfirmStopped? || c.DoSettleIdle?)
    ensures i < |Apply(db, c, now).attempts| && Apply(db, c, now).attempts[i].computeHeld
  {
    match c {
      case DoConfirmStopped(p, epoch, recover) => MismatchedEpochUnsettled(db, i, p, epoch, now, {}, recover, now);
      case DoSettleIdle(p, epoch, since, ids) => MismatchedEpochUnsettled(db, i, p, epoch, since, ids, false, now);
    }
  }

  lemma SettlementHolds(db: Ledger, c: Command, now: Time, i: AttemptId)
    requires Inv(db) && Outdated(db, i) && (c.DoReconcile? || c.DoSettleLost?)
    ensures i < |Apply(db, c, now).attempts| && Apply(db, c, now).attempts[i].computeHeld
  {
    if c.DoReconcile? {
      assert AttemptInv(db, i);
      ReconcileHolds(db, c.page, now, i);
    }
  }

  lemma OutdatedHeld(db: Ledger, c: Command, now: Time, i: AttemptId)
    requires Inv(db) && Outdated(db, i) && !(OwnerCall(c) && c.res.attempt == i)
    ensures i < |Apply(db, c, now).attempts| && Apply(db, c, now).attempts[i].computeHeld
  {
    if OwnerCall(c) {
      OwnerCallElsewhere(db, c, now, i);
    } else if c.DoReserve? {
      ReserveKeeps(db, c.pool, c.owner, c.candidates, now, i);
    } else if c.DoReconcile? || c.DoSettleLost? {
      SettlementHolds(db, c, now, i);
    } else if c.DoConfirmStopped? || c.DoSettleIdle? {
      EvidenceHolds(db, c, now, i);
    } else {
      SameAttempts(db, c, now);
    }
  }

  /** No transaction but a call of its owner takes an attempt from an epoch its pool has left. */
  lemma OutdatedStep(db: Ledger, c: Command, now: Time, i: AttemptId)
    requires Inv(db) && Outdated(db, i) && !(OwnerCall(c) && c.res.attempt == i)
    ensures Outdated(Apply(db, c, now), i)
  {
    OutdatedHeld(db, c, now, i);
    if c.DoConfigurePool? {
      assert db.attempts[i].computeHeld;
    } else {
      ApplySheds(db, c, now, i);
      ApplyEpochs(db, c, now, db.attempts[i].pool);
    }
  }

  /** The owner of attempt `i` makes no call in transactions `j` to `k - 1`. */
  predicate Unowned(cs: seq<Command>, j: nat, k: nat, i: AttemptId) {
    forall l :: j <= l < k <= |cs| ==> !(OwnerCall(cs[l]) && cs[l].res.attempt == i)
  }

  /**
   Once an attempt holds compute on an epoch its pool has left, it does so in
   every later ledger until its owner calls: no evidence, no reconciliation and no
   reconfiguration settles it, because the pool cannot return to that epoch.
   */
  lemma {:induction false} OutdatedForGood(run: seq<Ledger>, cs: seq<Command>, times: seq<Time>, j: nat, k: nat,
                                           i: AttemptId)
    requires IsRun(run, cs, times) && j <= k < |run| && Outdated(run[j], i) && Unowned(cs, j, k, i)
    ensures Outdated(run[k], i)
    decreases k
  {
    if j < k {
      OutdatedForGood(run, cs, times, j, k - 1, i);
      RunInvariant(run, cs, times, k - 1);
      assert Taken(run, cs, times, k - 1);
      OutdatedStep(run[k - 1], cs[k - 1], times[k - 1], i);
    }
  }
}
