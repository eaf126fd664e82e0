/** Where results come from: over every run, the result of an operation is the artifact of one commit of its own. */
module LedgerResults {
  import opened Ledger
  import opened LedgerEffects
  import opened LedgerInvariant
  import opened LedgerOutcomes
  import opened LedgerReconcile
  import opened LedgerRuns
  import opened LedgerSteps

  // ---------------------------------------------------------------- only a commit makes an operation succeed

  /** The operation succeeds after the transaction only if it had succeeded before. */
  predicate NoNewSuccess(db: Ledger, next: Ledger, o: OpId) {
    o in next.ops && next.ops[o].state == OpSucceeded ==> o in db.ops && db.ops[o].state == OpSucceeded
  }

  lemma EndCallSucceeds(db: Ledger, c: Command, now: Time, o: OpId)
    requires c.DoMarkUnknown? || c.DoFail?
    ensures NoNewSuccess(db, Apply(db, c, now), o)
  {
    if Owned(db, c.res) {
      var a := db.attempts[c.res.attempt];
      var op, root := db.ops[a.op], db.roots[a.root];
      match c
      case DoMarkUnknown(res, why) => MarkUnknownDoes(db, res, a, op, root, why, now);
      case DoFail(res, why, notSent, retry, delay) => FailDoes(db, res, a, op, root, why, notSent, retry, delay, now);
    }
  }

  lemma OwnerCallSucceeds(db: Ledger, c: Command, now: Time, o: OpId)
    requires OwnerCall(c) && !c.DoCommitResult?
    ensures NoNewSuccess(db, Apply(db, c, now), o)
  {
    if c.DoMarkUnknown? || c.DoFail? {
      EndCallSucceeds(db, c, now, o);
    }
  }

  lemma {:induction false} ScanSucceeds(db: Ledger, p: PoolId, owner: OwnerId, candidates: seq<OpId>, now: Time,
                                        o: OpId)
    requires p in db.pools
    ensures NoNewSuccess(db, Scan(db, p, owner, candidates, now).0, o)
    decreases |candidates|
  {
    if candidates != [] {
      ConsiderDoes(db, p, owner, candidates[0], now);
      match Consider(db, p, owner, candidates[0], now)
      case Take(next, res) =>
      case Skip(next) => ScanSucceeds(next, p, owner, candidates[1..], now, o);
    }
  }

  lemma {:induction false} OpAfterSucceeds(db: Ledger, k: nat, now: Time, o: OpId)
    requires k <= |db.attempts| && o in db.ops
    ensures OpAfter(db, k, now, o).state == OpSucceeded ==> db.ops[o].state == OpSucceeded
    decreases k
  {
    if k > 0 {
      OpAfterSucceeds(db, k - 1, now, o);
    }
  }

  lemma PhasesSucceed(db: Ledger, page: set<OpId>, now: Time, o: OpId)
    ensures NoNewSuccess(db, Phases(db, page, now), o)
  {
  }

  lemma LoopedOps(db: Ledger, now: Time, o: OpId)
    requires Inv(db) && o in Looped(db, now).ops
    ensures NoNewSuccess(db, Looped(db, now), o)
  {
    var db1 := TerminateAll(db, ExpiredOps(db, now), OpFailed, OperationDeadline);
    TerminateAllSound(db, ExpiredOps(db, now), OpFailed, OperationDeadline);
    LoopOpKeys(db1, |db1.attempts|, now);
    LoopOps(db1, |db1.attempts|, now, o);
    OpAfterSucceeds(db1, |db1.attempts|, now, o);
  }

  lemma {:induction false} LoopOpKeys(db: Ledger, k: nat, now: Time)
    requires Inv(db) && k <= |db.attempts|
    ensures ReconcileAttempts(db, db, k, now).ops.Keys == db.ops.Keys
    decreases k
  {
    if k > 0 {
      LoopOpKeys(db, k - 1, now);
      LoopLinks(db, k - 1, now);
      TurnWrites(ReconcileAttempts(db, db, k - 1, now), db, k - 1, now);
    }
  }

  lemma ReconcileSucceeds(db: Ledger, page: set<OpId>, now: Time, o: OpId)
    requires Inv(db)
    ensures NoNewSuccess(db, Reconcile(db, page, now), o)
  {
    PhasesSucceed(Looped(db, now), page, now, o);
    if o in Looped(db, now).ops {
      LoopedOps(db, now, o);
    }
  }

  lemma StoppedSucceeds(db: Ledger, i: AttemptId, recover: bool, error: Why, retryWhy: Why, now: Time, o: OpId)
    requires Linked(db, i)
    ensures NoNewSuccess(db, SettleStopped(db, i, recover, error, retryWhy, now), o)
  {
    SettleStoppedDoes(db, i, db.attempts[i], db.ops[db.attempts[i].op], recover, error, retryWhy, now);
  }

  lemma {:induction false} ProvenSucceeds(db: Ledger, seen: seq<Attempt>, p: PoolId, epoch: Epoch, e: Evidence, k: nat,
                                          now: Time, o: OpId)
    requires k <= |seen| == |db.attempts|
    ensures NoNewSuccess(db, SettleProven(db, seen, p, epoch, e, k, now), o)
    decreases k
  {
    if k > 0 {
      var before := SettleProven(db, seen, p, epoch, e, k - 1, now);
      ProvenSucceeds(db, seen, p, epoch, e, k - 1, now, o);
      if Proven(seen[k - 1], k - 1, p, epoch, e) && Linked(before, k - 1) {
        StoppedSucceeds(before, k - 1, OffersRecovery(e), ErrorOf(e), EngineRecovery, now, o);
      }
    }
  }

  lemma EvidenceSucceeds(db: Ledger, c: Command, now: Time, o: OpId)
    requires c.DoConfirmStopped? || c.DoSettleIdle?
    ensures NoNewSuccess(db, Apply(db, c, now), o)
  {
    match c {
      case DoConfirmStopped(p, epoch, recover) =>
        if p in db.pools {
          var closed := db.(pools := db.pools[p := db.pools[p].(target := 0, health := Unavailable)]);
          ProvenSucceeds(closed, db.attempts, p, epoch, EpochStopped(recover), |db.attempts|, now, o);
        }
      case DoSettleIdle(p, epoch, since, ids) =>
        ProvenSucceeds(db, db.attempts, p, epoch, IdleSince(since, ids), |db.attempts|, now, o);
    }
  }

  lemma SettlementSucceeds(db: Ledger, c: Command, now: Time, o: OpId)
    requires Inv(db)
    requires c.DoReconcile? || c.DoSettleLost? || c.DoConfirmStopped? || c.DoSettleIdle?
    ensures NoNewSuccess(db, Apply(db, c, now), o)
  {
    match c
    case DoReconcile(page) => ReconcileSucceeds(db, page, now, o);
    case DoSettleLost(i) =>
      if Linked(db, i) { StoppedSucceeds(db, i, true, ResultLost, ResultLost, now, o); }
    case _ => EvidenceSucceeds(db, c, now, o);
  }

  lemma CloseSucceeds(db: Ledger, id: RootId, root: Root, why: Why, o: OpId)
    ensures NoNewSuccess(db, CloseRoot(db, id, root, why), o)
  {
  }

  lemma CancelSucceeds(db: Ledger, r: RootId, tenant: TenantId, o: OpId)
    ensures NoNewSuccess(db, After(db, Cancel(db, r, tenant)), o)
  {
    CancelDoes(db, r, tenant);
  }

  lemma FinishSucceeds(db: Ledger, r: RootId, state: RunState, result: Option<Blob>, why: Why, now: Time, at: Time,
                       o: OpId)
    requires r in db.roots
    ensures NoNewSuccess(db, After(db, FinishRunning(db, r, state, result, why, now, at)), o)
  {
  }

  lemma FinishRunSucceeds(db: Ledger, r: RootId, tenant: TenantId, state: RunState, result: Option<Blob>, why: Why,
                          now: Time, at: Time, o: OpId)
    ensures NoNewSuccess(db, After(db, FinishRun(db, r, tenant, state, result, why, now, at)), o)
  {
    CancelSucceeds(db, r, tenant, o);
    if r in db.roots {
      FinishSucceeds(db, r, state, result, why, now, at, o);
    }
  }

  lemma SubmitSucceeds(db: Ledger, id: OpId, spec: OpSpec, now: Time, o: OpId)
    ensures NoNewSuccess(db, After(db, SubmitOperation(db, id, spec, now)), o)
  {
    SubmitOperationDoes(db, id, spec, now);
  }

  lemma RunCallSucceeds(db: Ledger, c: Command, now: Time, o: OpId)
    requires !OwnerCall(c) && !c.DoReconcile? && !c.DoSettleLost? && !c.DoConfirmStopped? && !c.DoSettleIdle?
    ensures NoNewSuccess(db, Apply(db, c, now), o)
  {
    match c
    case DoReserve(p, owner, candidates) =>
      if p in db.pools { ScanSucceeds(db, p, owner, candidates, now, o); }
    case DoSubmitOperation(id, spec) => SubmitSucceeds(db, id, spec, now, o);
    case DoCancel(r, tenant) => CancelSucceeds(db, r, tenant, o);
    case DoFinishRun(r, tenant, state, result, why, at) =>
      FinishRunSucceeds(db, r, tenant, state, result, why, now, at, o);
    case _ =>
  }

  lemma OnlyCommitSucceeds(db: Ledger, c: Command, now: Time, o: OpId)
    requires Inv(db) && !c.DoCommitResult?
    ensures NoNewSuccess(db, Apply(db, c, now), o)
  {
    if OwnerCall(c) {
      OwnerCallSucceeds(db, c, now, o);
    } else if c.DoReconcile? || c.DoSettleLost? || c.DoConfirmStopped? || c.DoSettleIdle? {
      SettlementSucceeds(db, c, now, o);
    } else {
      RunCallSucceeds(db, c, now, o);
    }
  }

  // ---------------------------------------------------------------- over whole runs

  /** The commit that gives operation `o` its result: made by its active attempt, in time, while its run was open. */
  predicate Answers(db: Ledger, c: Command, now: Time, o: OpId, result: Blob) {
    && c.DoCommitResult? && c.artifact == result && Owned(db, c.res)
    && db.attempts[c.res.attempt].op == o && db.ops[o].active == Some(c.res.attempt)
    && db.attempts[c.res.attempt].state == BackendFinished && !db.attempts[c.res.attempt].computeHeld
    && Awaits(db.ops[o], db.roots[db.attempts[c.res.attempt].root], now)
  }

  lemma CommitAnswers(db: Ledger, c: Command, now: Time, o: OpId)
    requires c.DoCommitResult? && o in Apply(db, c, now).ops
    ensures o in db.ops
    ensures Apply(db, c, now).ops[o].result != db.ops[o].result ==>
      Apply(db, c, now).ops[o].result.Some? && Answers(db, c, now, o, Apply(db, c, now).ops[o].result.value)
  {
    if Owned(db, c.res) {
      var a := db.attempts[c.res.attempt];
      CommitResultIff(db, c.res, a, db.ops[a.op], db.roots[a.root], c.artifact, c.usage, now);
      if a.state == BackendFinished && !a.computeHeld {
        CommitResultDoes(db, c.res, a, db.ops[a.op], db.roots[a.root], c.artifact, c.usage, now);
      }
    }
  }

  /** A result changes only when a commit answers the operation. */
  lemma ResultStep(db: Ledger, c: Command, now: Time, o: OpId)
    requires Inv(db) && Permitted(db, c) && o in Apply(db, c, now).ops && Apply(db, c, now).ops[o].result.Some?
    ensures (o in db.ops && db.ops[o].result == Apply(db, c, now).ops[o].result)
      || (o in db.ops && Answers(db, c, now, o, Apply(db, c, now).ops[o].result.value))
  {
    var next := Apply(db, c, now);
    ApplySound(db, c, now);
    assert OpInv(next, o);
    if c.DoCommitResult? {
      CommitAnswers(db, c, now, o);
    } else {
      OnlyCommitSucceeds(db, c, now, o);
      assert OpKept(db, next, o);
    }
  }

  /**
   Every result that an operation ever shows was committed for it, at one moment of the
   run, by its active attempt.
   */
  lemma {:induction false} ResultsAreCommitted(run: seq<Ledger>, cs: seq<Command>, times: seq<Time>, k: nat, o: OpId)
    returns (j: nat)
    requires IsRun(run, cs, times) && k < |run| && o in run[k].ops && run[k].ops[o].result.Some?
    ensures j < k && o in run[j].ops && Answers(run[j], cs[j], times[j], o, run[k].ops[o].result.value)
    decreases k
  {
    assert k > 0;
    RunInvariant(run, cs, times, k - 1);
    assert LedgerRuns.Taken(run, cs, times, k - 1);
    ResultStep(run[k - 1], cs[k - 1], times[k - 1], o);
    if Answers(run[k - 1], cs[k - 1], times[k - 1], o, run[k].ops[o].result.value) && o in run[k - 1].ops {
      j := k - 1;
    } else {
      j := ResultsAreCommitted(run, cs, times, k - 1, o);
    }
  }
}
