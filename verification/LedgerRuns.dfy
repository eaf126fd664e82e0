/**
 Runs of the ledger: any transactions, in any order, by any callers.
 */
module LedgerRuns {
  // The one thing asked of a caller is that `unknown` is reported only for an
  // attempt that was sent; the executor's own protocol (module System) meets it.

  import opened Ledger
  import opened LedgerInvariant
  import opened LedgerSteps

  datatype Command =
    | DoCreateRoot(root: RootId, rootSpec: RootSpec)
    | DoSubmitOperation(op: OpId, opSpec: OpSpec)
    | DoReserve(pool: PoolId, owner: OwnerId, candidates: seq<OpId>)
    | DoMarkSend(res: Reservation)
    | DoHeartbeat(res: Reservation)
    | DoComputeFinished(res: Reservation)
    | DoCommitResult(res: Reservation, artifact: Blob, usage: Option<nat>)
    | DoMarkUnknown(res: Reservation, why: Why)
    | DoFail(res: Reservation, why: Why, notSent: bool, retry: bool, delay: nat)
    | DoCancel(root: RootId, tenant: TenantId)
    | DoFinishRun(root: RootId, tenant: TenantId, state: RunState, result: Option<Blob>, why: Why, at: Time)
    | DoBind(op: OpId, tenant: TenantId, binding: BindingId)
    | DoReconcile(page: set<OpId>)
    | DoSettleLost(attempt: AttemptId)
    | DoConfirmStopped(pool: PoolId, epoch: Epoch, recover: bool)
    | DoSettleIdle(pool: PoolId, epoch: Epoch, since: Time, ids: set<AttemptId>)
    | DoConfigurePool(pool: PoolId, poolSpec: PoolSpec, epoch: Epoch)
    | DoControlPool(pool: PoolId, health: Health, target: nat)
    | DoRenewOwner(owner: OwnerId, boot: nat)

  function After(db: Ledger, t: Tx): Ledger {
    if t.Commit? then t.db else db
  }

  /** The ledger after one transaction; one that raises changes nothing. */
  function Apply(db: Ledger, c: Command, now: Time): Ledger {
    match c
    case DoCreateRoot(r, spec) => After(db, CreateRoot(db, r, spec, now))
    case DoSubmitOperation(o, spec) => After(db, SubmitOperation(db, o, spec, now))
    case DoReserve(p, owner, candidates) => ReserveNext(db, p, owner, candidates, now).0
    case DoMarkSend(res) => After(db, MarkSend(db, res, now))
    case DoHeartbeat(res) => After(db, Heartbeat(db, res, now))
    case DoComputeFinished(res) => After(db, ComputeFinished(db, res))
    case DoCommitResult(res, artifact, usage) => After(db, CommitResult(db, res, artifact, usage, now))
    case DoMarkUnknown(res, why) => After(db, MarkUnknown(db, res, why, now))
    case DoFail(res, why, notSent, retry, delay) => After(db, Fail(db, res, why, notSent, retry, delay, now))
    case DoCancel(r, tenant) => After(db, Cancel(db, r, tenant))
    case DoFinishRun(r, tenant, state, result, why, at) =>
      After(db, FinishRun(db, r, tenant, state, result, why, now, at))
    case DoBind(o, tenant, b) => After(db, BindCompletion(db, o, tenant, b))
    case DoReconcile(page) => Reconcile(db, page, now)
    case DoSettleLost(i) => SettleLost(db, i, now)
    case DoConfirmStopped(p, epoch, recover) => After(db, ConfirmEpochStopped(db, p, epoch, recover, now))
    case DoSettleIdle(p, epoch, since, ids) => SettleIdle(db, p, epoch, since, ids, now)
    case DoConfigurePool(p, spec, epoch) => After(db, ConfigurePool(db, p, spec, epoch))
    case DoControlPool(p, health, target) => ControlPool(db, p, health, target)
    case DoRenewOwner(owner, boot) => After(db, RenewOwner(db, owner, boot, now))
  }

  /** The calls an executor makes for an attempt it holds. */
  predicate OwnerCall(c: Command) {
    c.DoMarkSend? || c.DoHeartbeat? || c.DoComputeFinished? || c.DoCommitResult? || c.DoMarkUnknown? || c.DoFail?
  }

  /** `unknown` is reported only for an attempt whose SEND_INTENT committed. */
  predicate Permitted(db: Ledger, c: Command) {
    c.DoMarkUnknown? && Owned(db, c.res) ==> db.attempts[c.res.attempt].state != Reserved
  }

  lemma OwnerCallSound(db: Ledger, c: Command, now: Time)
    requires Inv(db) && Permitted(db, c) && OwnerCall(c)
    ensures Sound(db, Apply(db, c, now))
  {
    EvolvesRefl(db);
    if Apply(db, c, now) != db {
      match c
      case DoMarkSend(res) => MarkSendSound(db, res, now);
      case DoHeartbeat(res) => HeartbeatSound(db, res, now);
      case DoComputeFinished(res) => ComputeFinishedSound(db, res);
      case DoCommitResult(res, artifact, usage) => CommitResultSound(db, res, artifact, usage, now);
      case DoMarkUnknown(res, why) => MarkUnknownSound(db, res, why, now);
      case DoFail(res, why, notSent, retry, delay) => FailSound(db, res, why, notSent, retry, delay, now);
    }
  }

  lemma SettlementSound(db: Ledger, c: Command, now: Time)
    requires Inv(db)
    requires c.DoReconcile? || c.DoSettleLost? || c.DoConfirmStopped? || c.DoSettleIdle?
    ensures Sound(db, Apply(db, c, now))
  {
    EvolvesRefl(db);
    match c
    case DoReconcile(page) => ReconcileSound(db, page, now);
    case DoSettleLost(i) =>
      if Lost(db, i, now) {
        SettleStoppedSound(db, i, true, ResultLost, ResultLost, now);
      }
    case DoConfirmStopped(p, epoch, recover) =>
      if ConfirmEpochStopped(db, p, epoch, recover, now).Commit? {
        var closed := db.(pools := db.pools[p := db.pools[p].(target := 0, health := Unavailable)]);
        ElsewhereSound(db, db, closed);
        SettleProvenSound(closed, p, epoch, EpochStopped(recover), |db.attempts|, now);
        EvolvesTrans(db, closed, Apply(db, c, now));
      }
    case DoSettleIdle(p, epoch, since, ids) =>
      if p in db.pools && db.pools[p].epoch == epoch {
        SettleProvenSound(db, p, epoch, IdleSince(since, ids), |db.attempts|, now);
      }
  }

  lemma RunCallSound(db: Ledger, c: Command, now: Time)
    requires Inv(db)
    requires c.DoCreateRoot? || c.DoSubmitOperation? || c.DoReserve? || c.DoCancel? || c.DoFinishRun? || c.DoBind?
    ensures Sound(db, Apply(db, c, now))
  {
    EvolvesRefl(db);
    match c
    case DoCreateRoot(r, spec) =>
      if CreateRoot(db, r, spec, now).Commit? { CreateRootSound(db, r, spec, now); }
    case DoSubmitOperation(o, spec) =>
      if SubmitOperation(db, o, spec, now).Commit? { SubmitOperationSound(db, o, spec, now); }
    case DoReserve(p, owner, candidates) =>
      if p in db.pools { ScanSound(db, p, owner, candidates, now); }
    case DoCancel(r, tenant) =>
      if Cancel(db, r, tenant).Commit? { CancelSound(db, r, tenant); }
    case DoFinishRun(r, tenant, state, result, why, at) =>
      if FinishRun(db, r, tenant, state, result, why, now, at).Commit? {
        FinishRunSound(db, r, tenant, state, result, why, now, at);
      }
    case DoBind(o, tenant, b) =>
      if BindCompletion(db, o, tenant, b).Commit? { BindCompletionSound(db, o, tenant, b); }
  }

  /** Every transaction keeps the invariant and undoes nothing final. */
  lemma ApplySound(db: Ledger, c: Command, now: Time)
    requires Inv(db) && Permitted(db, c)
    ensures Sound(db, Apply(db, c, now))
  {
    if OwnerCall(c) {
      OwnerCallSound(db, c, now);
    } else if c.DoReconcile? || c.DoSettleLost? || c.DoConfirmStopped? || c.DoSettleIdle? {
      SettlementSound(db, c, now);
    } else if c.DoConfigurePool? || c.DoControlPool? || c.DoRenewOwner? {
      EvolvesRefl(db);
      ElsewhereSound(db, db, Apply(db, c, now));
    } else {
      RunCallSound(db, c, now);
    }
  }

  // ---------------------------------------------------------------- whole runs

  /** An empty ledger with any configuration, pools and owners. */
  predicate Initial(db: Ledger) {
    db.roots == map[] && db.ops == map[] && db.attempts == [] && db.bindings == map[] && db.completions == {}
  }

  ghost predicate IsRun(run: seq<Ledger>, cs: seq<Command>, times: seq<Time>) {
    && |run| == |cs| + 1 == |times| + 1
    && Initial(run[0])
    && forall k: nat {:trigger Taken(run, cs, times, k)} :: k < |cs| ==> Taken(run, cs, times, k)
  }

  /** Transaction `k` leads from ledger `k` to the next. */
  predicate Taken(run: seq<Ledger>, cs: seq<Command>, times: seq<Time>, k: nat) {
    && k < |cs| && k < |times| && k + 1 < |run|
    && Permitted(run[k], cs[k]) && run[k + 1] == Apply(run[k], cs[k], times[k])
  }

  /** Every ledger a run reaches satisfies the invariant. */
  lemma {:induction false} RunInvariant(run: seq<Ledger>, cs: seq<Command>, times: seq<Time>, k: nat)
    requires IsRun(run, cs, times) && k < |run|
    ensures Inv(run[k])
    decreases k
  {
    if k > 0 {
      RunInvariant(run, cs, times, k - 1);
      assert Taken(run, cs, times, k - 1);
      ApplySound(run[k - 1], cs[k - 1], times[k - 1]);
    }
  }

  /**
   Terminal operations, ended runs and their results, final attempts with their
   usage, sends and published completions survive every later transaction.
   */
  lemma {:induction false} RunAbsorbing(run: seq<Ledger>, cs: seq<Command>, times: seq<Time>, j: nat, k: nat)
    requires IsRun(run, cs, times) && j <= k < |run|
    ensures Evolves(run[j], run[k])
    decreases k
  {
    if j == k {
      EvolvesRefl(run[k]);
    } else {
      RunAbsorbing(run, cs, times, j, k - 1);
      RunInvariant(run, cs, times, k - 1);
      assert Taken(run, cs, times, k - 1);
      ApplySound(run[k - 1], cs[k - 1], times[k - 1]);
      EvolvesTrans(run[j], run[k - 1], run[k]);
    }
  }

  // ---------------------------------------------------------------- what the invariant means

  /** At most one attempt of an operation is not final, and it is the active one. */
  lemma AtMostOneLive(db: Ledger, i: AttemptId, j: AttemptId)
    requires Inv(db) && i < |db.attempts| && j < |db.attempts| && db.attempts[i].op == db.attempts[j].op
    requires !Final(db.attempts[i].state) && !Final(db.attempts[j].state)
    ensures i == j && Linked(db, i) && db.ops[db.attempts[i].op].active == Some(i)
  {
    assert AttemptInv(db, i) && AttemptInv(db, j);
  }

  /** A queued operation has no live attempt; one in flight has exactly one, its active one. */
  lemma LiveAttempts(db: Ledger, o: OpId)
    requires Inv(db) && o in db.ops
    ensures Queued(db.ops[o].state)
      ==> forall i :: 0 <= i < |db.attempts| && db.attempts[i].op == o ==> Final(db.attempts[i].state)
    ensures InFlight(db.ops[o].state) ==>
      && db.ops[o].active.Some? && db.ops[o].active.value < |db.attempts|
      && db.attempts[db.ops[o].active.value].op == o && !Final(db.attempts[db.ops[o].active.value].state)
  {
    assert OpInv(db, o);
    forall i | 0 <= i < |db.attempts| && db.attempts[i].op == o && Queued(db.ops[o].state)
      ensures Final(db.attempts[i].state)
    {
      assert AttemptInv(db, i);
    }
  }

  /** A reservation whose attempt ended, or is no longer the active one, cannot change the ledger. */
  lemma StaleReservationInert(db: Ledger, c: Command, now: Time)
    requires Inv(db) && OwnerCall(c)
    requires Owned(db, c.res) ==> Final(db.attempts[c.res.attempt].state)
    ensures Apply(db, c, now) == db
  {
  }

  /** The books of a run: exact, and over the limit by no more than the engines overran. */
  lemma BooksExact(db: Ledger, r: RootId, u: Unit)
    requires Inv(db) && r in db.roots && u in db.roots[r].budgets
    ensures var b := db.roots[r].budgets[u];
      && u in db.roots[r].spec.limits && b.limit == db.roots[r].spec.limits[u]
      && b.reserved == Total(db.attempts, Held(r, u)) && b.spent == Total(db.attempts, Used(r, u))
      && b.spent + b.reserved <= b.limit + Total(db.attempts, Over(r, u))
      && (db.roots[r].state == Running ==> b.spent <= b.limit)
    ensures db.roots[r].attempts == Total(db.attempts, RootSends(r)) <= db.roots[r].spec.maxAttempts
  {
    assert RootInv(db, r);
  }

  /** With engines that keep to their bounds, no budget is ever exceeded. */
  lemma NoOverrunNoOverspend(db: Ledger, r: RootId, u: Unit)
    requires Inv(db) && r in db.roots && u in db.roots[r].budgets
    requires forall i :: 0 <= i < |db.attempts| && db.attempts[i].usage.Some?
                         ==> db.attempts[i].usage.value <= db.attempts[i].bound
    ensures db.roots[r].budgets[u].spent + db.roots[r].budgets[u].reserved <= db.roots[r].budgets[u].limit
  {
    BooksExact(db, r, u);
    TotalZero(db.attempts, Over(r, u));
  }

  /** Sends of one operation are counted exactly and bounded. */
  lemma SendsBounded(db: Ledger, o: OpId)
    requires Inv(db) && o in db.ops
    ensures db.ops[o].attempts == Total(db.attempts, OpSends(o)) <= db.ops[o].spec.maxAttempts
  {
    assert OpInv(db, o);
  }

  /** A sent attempt is charged once: it holds its reservation until it is final, and then its usage for ever. */
  lemma ChargedOnce(run: seq<Ledger>, cs: seq<Command>, times: seq<Time>, j: nat, k: nat, i: AttemptId)
    requires IsRun(run, cs, times) && j <= k < |run| && i < |run[j].attempts| && run[j].attempts[i].sent
    ensures i < |run[k].attempts|
    ensures var a := run[j].attempts[i];
      var b := run[k].attempts[i];
      && b.sent
      && b.budgetHeld != Final(b.state)
      && (Final(a.state) ==> a.usage.Some? && b == a)
      && (!b.budgetHeld ==> b.usage.Some?)
  {
    RunAbsorbing(run, cs, times, j, k);
    RunInvariant(run, cs, times, j);
    RunInvariant(run, cs, times, k);
    assert AttemptEvolves(run[j].attempts[i], run[k].attempts[i]);
    assert AttemptInv(run[j], i) && AttemptInv(run[k], i);
  }

  /** A completion is published exactly when its operation has ended, whichever came first. */
  lemma NoLostCompletion(run: seq<Ledger>, cs: seq<Command>, times: seq<Time>, k: nat, b: BindingId)
    requires IsRun(run, cs, times) && k < |run| && b in run[k].bindings
    ensures run[k].bindings[b] in run[k].ops
    ensures b in run[k].completions <==> Terminal(run[k].ops[run[k].bindings[b]].state)
    ensures forall l :: k <= l < |run| && b in run[k].completions ==> b in run[l].completions
  {
    RunInvariant(run, cs, times, k);
    assert BindingInv(run[k], b);
    forall l | k <= l < |run| && b in run[k].completions ensures b in run[l].completions {
      RunAbsorbing(run, cs, times, k, l);
    }
  }

  /** Without the caller's promise, exactly the unsent attempts would be stranded by `unknown`. */
  lemma UnknownStrandsUnsent(db: Ledger, res: Reservation, why: Why, now: Time)
    requires Inv(db) && MarkUnknown(db, res, why, now).Commit?
    ensures Inv(MarkUnknown(db, res, why, now).db) <==> db.attempts[res.attempt].state != Reserved
  {
    var next := MarkUnknown(db, res, why, now).db;
    if db.attempts[res.attempt].state != Reserved {
      MarkUnknownSound(db, res, why, now);
    } else {
      assert AttemptInv(db, res.attempt);
      assert Stranded(next.attempts[res.attempt]);
      assert !AttemptInv(next, res.attempt);
    }
  }
}
