/**
 Nothing stays stranded: once its owner is gone, every attempt that is not final
 has a settling step, and an attempt that holds compute has one exactly when its
 epoch is still the epoch of its pool.
 */
module LedgerRecovery {
  import opened Ledger
  import Data = Ledger
  import opened LedgerInvariant
  import opened LedgerSteps

  // ---------------------------------------------------------------- one row of a settlement loop

  lemma {:induction false} ReconciledRow(db: Ledger, k: nat, i: AttemptId, now: Time)
    requires i < k <= |db.attempts| && Inv(db) && Abandoned(db, i, now)
    ensures var b := ReconcileAttempts(db, db, k, now).attempts[i];
      if db.attempts[i].state == Reserved then b == db.attempts[i].(state := FailedNotSent)
      else b == db.attempts[i].(state := Unknown, unknownAt := Some(now))
  {
    var before := ReconcileAttempts(db, db, k - 1, now);
    if i < k - 1 {
      ReconciledRow(db, k - 1, i, now);
      ReconcileAttemptElsewhere(before, db, k - 1, now);
    } else {
      ReconcileAttemptsSound(db, k - 1, now);
      assert AttemptInv(before, i) && AttemptOk(db.attempts[i]);
    }
  }

  lemma {:induction false} UnabandonedRow(db: Ledger, k: nat, i: AttemptId, now: Time)
    requires i < |db.attempts| && k <= |db.attempts| && !Abandoned(db, i, now)
    ensures ReconcileAttempts(db, db, k, now).attempts[i] == db.attempts[i]
  {
    if k > 0 {
      UnabandonedRow(db, k - 1, i, now);
      ReconcileAttemptElsewhere(ReconcileAttempts(db, db, k - 1, now), db, k - 1, now);
    }
  }

  lemma {:induction false} ProvenRow(db: Ledger, p: PoolId, epoch: Epoch, e: Evidence, k: nat, i: AttemptId, now: Time)
    requires i < k <= |db.attempts| && Inv(db) && Proven(db.attempts[i], i, p, epoch, e)
    ensures SettleProven(db, db.attempts, p, epoch, e, k, now).attempts[i] == StoppedAttempt(db.attempts[i])
  {
    var before := SettleProven(db, db.attempts, p, epoch, e, k - 1, now);
    if i < k - 1 {
      ProvenRow(db, p, epoch, e, k - 1, i, now);
      SettleProvenAtElsewhere(before, db.attempts[k - 1], k - 1, p, epoch, e, now);
    } else {
      SettleProvenSound(db, p, epoch, e, k - 1, now);
      assert AttemptInv(before, i);
    }
  }

  lemma {:induction false} UnprovenRow(db: Ledger, p: PoolId, epoch: Epoch, e: Evidence, k: nat, i: AttemptId,
                                       now: Time)
    requires i < |db.attempts| && k <= |db.attempts| && !Proven(db.attempts[i], i, p, epoch, e)
    ensures SettleProven(db, db.attempts, p, epoch, e, k, now).attempts[i] == db.attempts[i]
  {
    if k > 0 {
      UnprovenRow(db, p, epoch, e, k - 1, i, now);
      SettleProvenAtElsewhere(SettleProven(db, db.attempts, p, epoch, e, k - 1, now), db.attempts[k - 1], k - 1, p,
                              epoch, e, now);
    }
  }

  /** `reconcile_expired` changes an attempt only in its attempt loop. */
  lemma ReconcileRow(db: Ledger, page: set<OpId>, i: AttemptId, now: Time)
    requires Inv(db) && i < |db.attempts|
    ensures |Reconcile(db, page, now).attempts| == |db.attempts|
    ensures var a := db.attempts[i];
      var b := Reconcile(db, page, now).attempts[i];
      && (LeaseLost(db, a, now) && a.state == Reserved ==> b.state == FailedNotSent && !b.computeHeld)
      && (LeaseLost(db, a, now) && a.state == SendIntent ==> b == a.(state := Unknown, unknownAt := Some(now)))
      && (a.state != Reserved && a.state != SendIntent ==> b == a)
  {
    var db1 := TerminateAll(db, ExpiredOps(db, now), OpFailed, OperationDeadline);
    TerminateAllSound(db, ExpiredOps(db, now), OpFailed, OperationDeadline);
    assert AttemptInv(db1, i) && db1.attempts == db.attempts && db1.owners == db.owners;
    if Abandoned(db1, i, now) {
      ReconciledRow(db1, |db1.attempts|, i, now);
    } else {
      UnabandonedRow(db1, |db1.attempts|, i, now);
    }
  }

  // ---------------------------------------------------------------- the settling step of each state

  /** Without its owner an unsent attempt is cancelled, and a sent one waits for evidence holding its compute. */
  lemma DeadOwnerBeforeEnd(db: Ledger, page: set<OpId>, i: AttemptId, now: Time)
    requires Inv(db) && i < |db.attempts| && LeaseLost(db, db.attempts[i], now)
    requires db.attempts[i].state == Reserved || db.attempts[i].state == SendIntent
    ensures |Reconcile(db, page, now).attempts| == |db.attempts|
    ensures var b := Reconcile(db, page, now).attempts[i];
      if db.attempts[i].state == Reserved then Final(b.state)
      else b.state == Unknown && b.computeHeld && b.unknownAt == Some(now)
  {
    assert AttemptInv(db, i);
    ReconcileRow(db, page, i, now);
  }

  /** An ended inference whose result can no longer be committed is settled by `_settle_lost_results`. */
  lemma DeadOwnerAfterEnd(db: Ledger, i: AttemptId, now: Time)
    requires Inv(db) && i < |db.attempts| && !db.attempts[i].computeHeld
    requires db.attempts[i].state == Unknown
      || (db.attempts[i].state == BackendFinished && LeaseLost(db, db.attempts[i], now))
    ensures SettleLost(db, i, now).attempts[i] == StoppedAttempt(db.attempts[i])
  {
    assert AttemptInv(db, i);
  }

  /** The two kinds of evidence settle an uncertain attempt on its pool's current epoch. */
  lemma EvidenceSettles(db: Ledger, i: AttemptId, since: Time, ids: set<AttemptId>, recover: bool, now: Time)
    requires Inv(db) && i < |db.attempts| && db.attempts[i].state == Unknown && db.attempts[i].computeHeld
    requires var a := db.attempts[i]; a.pool in db.pools && db.pools[a.pool].epoch == a.epoch
    requires db.attempts[i].unknownAt.Some? ==> db.attempts[i].unknownAt.value < since
    ensures i in ids ==>
      |SettleIdle(db, db.attempts[i].pool, db.attempts[i].epoch, since, ids, now).attempts| == |db.attempts| &&
      SettleIdle(db, db.attempts[i].pool, db.attempts[i].epoch, since, ids, now).attempts[i]
        == StoppedAttempt(db.attempts[i])
    ensures var t := ConfirmEpochStopped(db, db.attempts[i].pool, db.attempts[i].epoch, recover, now);
      t.Commit? ==> |t.db.attempts| == |db.attempts| && t.db.attempts[i] == StoppedAttempt(db.attempts[i])
  {
    assert AttemptInv(db, i);
    var a := db.attempts[i];
    if i in ids {
      ProvenRow(db, a.pool, a.epoch, IdleSince(since, ids), |db.attempts|, i, now);
    }
    var closed := db.(pools := db.pools[a.pool := db.pools[a.pool].(target := 0, health := Unavailable)]);
    EvolvesRefl(db);
    ElsewhereSound(db, db, closed);
    ProvenRow(closed, a.pool, a.epoch, EpochStopped(recover), |db.attempts|, i, now);
  }

  /**
   Evidence about any pool and any epoch leaves an attempt alone when its own
   epoch is not its pool's: such an attempt keeps its compute and its budget.
   */
  lemma MismatchedEpochUnsettled(db: Ledger, i: AttemptId, p: PoolId, epoch: Epoch, since: Time, ids: set<AttemptId>,
                                 recover: bool, now: Time)
    requires Inv(db) && i < |db.attempts| && db.attempts[i].computeHeld
    requires var a := db.attempts[i]; a.pool in db.pools ==> db.pools[a.pool].epoch != a.epoch
    ensures |SettleIdle(db, p, epoch, since, ids, now).attempts| == |db.attempts|
    ensures SettleIdle(db, p, epoch, since, ids, now).attempts[i] == db.attempts[i]
    ensures var t := ConfirmEpochStopped(db, p, epoch, recover, now);
      t.Commit? ==> |t.db.attempts| == |db.attempts| && t.db.attempts[i] == db.attempts[i]
  {
    if p in db.pools && db.pools[p].epoch == epoch {
      UnprovenRow(db, p, epoch, IdleSince(since, ids), |db.attempts|, i, now);
      var closed := db.(pools := db.pools[p := db.pools[p].(target := 0, health := Unavailable)]);
      UnprovenRow(closed, p, epoch, EpochStopped(recover), |db.attempts|, i, now);
    }
  }

  /** The three settling transactions, one after the other, with evidence about one attempt. */
  function Recover(db: Ledger, i: AttemptId, since: Time, now: Time): (r: Ledger)
    requires i < |db.attempts|
  {
    var db1 := Reconcile(db, {}, now);
    var db2 := SettleLost(db1, i, now);
    SettleIdle(db2, db.attempts[i].pool, db.attempts[i].epoch, since, {i}, now)
  }

  /**
   Once its owner is gone, an attempt ends under the settling transactions if and
   only if it no longer claims the engine or its epoch is the epoch of its pool.
   */
  lemma DeadOwnerSettlesIff(db: Ledger, i: AttemptId, since: Time, now: Time)
    requires Inv(db) && i < |db.attempts| && LeaseLost(db, db.attempts[i], now) && now < since
    requires db.attempts[i].unknownAt.Some? ==> db.attempts[i].unknownAt.value < since
    ensures |Recover(db, i, since, now).attempts| == |db.attempts| && Sound(db, Recover(db, i, since, now))
    ensures Final(Recover(db, i, since, now).attempts[i].state) <==>
      (!db.attempts[i].computeHeld
       || (db.attempts[i].pool in db.pools && db.pools[db.attempts[i].pool].epoch == db.attempts[i].epoch))
  {
    var db1 := Reconcile(db, {}, now);
    var db2 := SettleLost(db1, i, now);
    ReconciledOrLost(db, i, since, now);
    EvolvesTrans(db, db1, db2);
    ReconcileEpochs(db, {}, now);
    StopEpochs(db1, i, now);
    EvidenceDecides(db2, i, db.attempts[i].pool, db.attempts[i].epoch, since, now);
    EvolvesTrans(db, db2, Recover(db, i, since, now));
  }

  /** An attempt without an owner is final after two transactions, or uncertain and holding its compute. */
  lemma ReconciledOrLost(db: Ledger, i: AttemptId, since: Time, now: Time)
    requires Inv(db) && i < |db.attempts| && LeaseLost(db, db.attempts[i], now) && now < since
    requires db.attempts[i].unknownAt.Some? ==> db.attempts[i].unknownAt.value < since
    ensures var db1 := Reconcile(db, {}, now);
      var db2 := SettleLost(db1, i, now);
      && Sound(db, db1) && Sound(db1, db2) && |db2.attempts| == |db.attempts|
      && var b := db2.attempts[i];
         && SameAttempt(db.attempts[i], b) && b.computeHeld == db.attempts[i].computeHeld
         && (Final(b.state) || (b.state == Unknown && b.computeHeld && b.unknownAt.Some? && b.unknownAt.value < since))
  {
    assert AttemptInv(db, i);
    ReconciledRowOf(db, i, now);
    assert AttemptInv(Reconcile(db, {}, now), i);
    LostDecides(Reconcile(db, {}, now), i, now);
  }

  lemma ReconciledRowOf(db: Ledger, i: AttemptId, now: Time)
    requires Inv(db) && i < |db.attempts| && LeaseLost(db, db.attempts[i], now)
    ensures var db1 := Reconcile(db, {}, now);
      && Sound(db, db1) && |db1.attempts| == |db.attempts|
      && var b := db1.attempts[i];
         && SameAttempt(db.attempts[i], b) && b.computeHeld == db.attempts[i].computeHeld
         && (Final(b.state) || Lost(db1, i, now)
             || (b.state == Unknown && b.computeHeld
                 && (b.unknownAt == Some(now) || b.unknownAt == db.attempts[i].unknownAt)))
  {
    assert AttemptInv(db, i);
    ReconcileSound(db, {}, now);
    ReconcileRow(db, {}, i, now);
    ReconcileEpochs(db, {}, now);
    assert AttemptEvolves(db.attempts[i], Reconcile(db, {}, now).attempts[i]);
    assert AttemptInv(Reconcile(db, {}, now), i);
  }

  lemma LostDecides(db: Ledger, i: AttemptId, now: Time)
    requires Inv(db) && i < |db.attempts|
    ensures var next := SettleLost(db, i, now);
      && Sound(db, next) && |next.attempts| == |db.attempts|
      && SameAttempt(db.attempts[i], next.attempts[i]) && next.attempts[i].computeHeld == db.attempts[i].computeHeld
      && (if Lost(db, i, now) then Final(next.attempts[i].state) else next == db)
  {
    assert AttemptInv(db, i);
    EvolvesRefl(db);
    if Lost(db, i, now) {
      SettleStoppedSound(db, i, true, ResultLost, ResultLost, now);
    }
  }

  lemma EvidenceDecides(db: Ledger, i: AttemptId, p: PoolId, epoch: Epoch, since: Time, now: Time)
    requires Inv(db) && i < |db.attempts| && db.attempts[i].pool == p && db.attempts[i].epoch == epoch
    requires var b := db.attempts[i];
      Final(b.state) || (b.state == Unknown && b.computeHeld && b.unknownAt.Some? && b.unknownAt.value < since)
    ensures var next := SettleIdle(db, p, epoch, since, {i}, now);
      && Sound(db, next) && |next.attempts| == |db.attempts|
      && (Final(next.attempts[i].state)
          <==> !db.attempts[i].computeHeld || (p in db.pools && db.pools[p].epoch == epoch))
  {
    assert AttemptInv(db, i);
    EvolvesRefl(db);
    if p in db.pools && db.pools[p].epoch == epoch {
      SettleProvenSound(db, p, epoch, IdleSince(since, {i}), |db.attempts|, now);
      if db.attempts[i].computeHeld {
        ProvenRow(db, p, epoch, IdleSince(since, {i}), |db.attempts|, i, now);
      } else {
        UnprovenRow(db, p, epoch, IdleSince(since, {i}), |db.attempts|, i, now);
      }
    }
  }

  /** Settling never changes the epoch of a pool. */
  ghost predicate SameEpochs(x: Ledger, y: Ledger) {
    && y.pools.Keys == x.pools.Keys && y.owners == x.owners
    && forall p :: p in x.pools ==> y.pools[p].epoch == x.pools[p].epoch
  }

  lemma {:induction false} ReconcileLoopEpochs(db: Ledger, k: nat, now: Time)
    requires k <= |db.attempts|
    ensures SameEpochs(db, ReconcileAttempts(db, db, k, now))
  {
    if k > 0 {
      ReconcileLoopEpochs(db, k - 1, now);
      ReconcileAttemptEpochs(ReconcileAttempts(db, db, k - 1, now), db, k - 1, now);
    }
  }

  lemma ReconcileAttemptEpochs(db: Ledger, seen: Ledger, i: AttemptId, now: Time)
    ensures SameEpochs(db, ReconcileAttempt(db, seen, i, now))
  {
  }

  lemma ReconcileEpochs(db: Ledger, page: set<OpId>, now: Time)
    ensures SameEpochs(db, Reconcile(db, page, now))
  {
    var db1 := TerminateAll(db, ExpiredOps(db, now), OpFailed, OperationDeadline);
    ReconcileLoopEpochs(db1, |db1.attempts|, now);
  }

  lemma StopEpochs(db: Ledger, i: AttemptId, now: Time)
    ensures SameEpochs(db, SettleLost(db, i, now))
  {
  }

  // ---------------------------------------------------------------- an epoch mismatch is reachable

  /** Nothing on the pool holds compute or budget, so it may be given another epoch. */
  predicate Drained(db: Ledger, p: PoolId) {
    forall i :: 0 <= i < |db.attempts| && db.attempts[i].pool == p
        ==> !db.attempts[i].computeHeld && !db.attempts[i].budgetHeld
  }

  /** `mark_send` does not look at the epoch: an attempt reserved before a reconfiguration is sent on the old one. */
  lemma ReconfiguredBeforeSend(db: Ledger, res: Reservation, p: PoolId, spec: PoolSpec, epoch: Epoch, now: Time)
    requires Inv(db) && MarkSend(db, res, now).Commit? && Drained(db, p)
    requires p in db.pools && db.attempts[res.attempt].pool == p && epoch != db.attempts[res.attempt].epoch
    ensures ConfigurePool(db, p, spec, epoch).Commit?
    ensures var t := MarkSend(ConfigurePool(db, p, spec, epoch).db, res, now);
      && t.Commit? && res.attempt < |t.db.attempts| && p in t.db.pools
      && t.db.attempts[res.attempt].computeHeld && t.db.attempts[res.attempt].epoch != t.db.pools[p].epoch
  {
    assert !exists i :: 0 <= i < |db.attempts| && db.attempts[i].pool == p
                        && (db.attempts[i].computeHeld || db.attempts[i].budgetHeld);
  }

  const POOL := PoolSpec(0, Tokens, 0, 0, 0, {}, 10, 1, 1)
  const RUN := Root(RootSpec(0, 1000, map[Tokens := 100], 10, 10, 10), Running, false, 0, 1,
                    map[Tokens := Budget(100, 0, 0)], None, NoReason)
  const TASK := OpSpec(0, 0, Tokens, 10, 3, 500, None, 0, None, {}, 0, 0)

  /** One run, one operation and its unsent attempt on epoch 1 of pool 0. */
  function Sample(): Ledger {
    Data.Ledger.Ledger(
      1, 1, 60, map[0 := RUN], map[0 := Operation(TASK, Executing, Some(0), 0, None, None, NoReason)],
      [Attempt(0, 0, 0, 1, 1, 0, Tokens, 10, 0, 60, Reserved, false, false, false, false, None, None)],
      map[0 := Pool(POOL, 1, Healthy, 1)], map[0 := Healthy], map[], map[], {}, {})
  }

  lemma SampleInv()
    ensures Inv(Sample())
  {
    var db := Sample();
    assert AttemptInv(db, 0);
    assert db.attempts[..0] == [];
    assert Total(db.attempts, OpSends(0)) == 0;
    assert OpInv(db, 0);
    assert Total(db.attempts, RootSends(0)) == 0 && Total(db.attempts, Held(0, Tokens)) == 0;
    assert Total(db.attempts, Used(0, Tokens)) == 0 && Total(db.attempts, Over(0, Tokens)) == 0;
    assert RootInv(db, 0);
  }
}
