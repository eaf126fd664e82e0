/** What reconciliation and evidence leave behind: which operations and runs they end, and which they give back. */
module LedgerReconcile {
  import opened Ledger
  import opened LedgerEffects
  import opened LedgerInvariant
  import opened LedgerOutcomes
  import opened LedgerRecovery
  import opened LedgerRuns
  import opened LedgerSteps

  // ---------------------------------------------------------------- the loop over abandoned attempts

  /** Nobody has vouched for the attempt since its lease ran out. */
  predicate Lapsed(db: Ledger, a: Attempt, now: Time) {
    a.lease < now && !(a.owner in db.owners && db.owners[a.owner].expires > now)
  }

  /** The row of an operation after the first `k` turns of the loop. */
  function OpAfter(db: Ledger, k: nat, now: Time, o: OpId): Operation
    requires k <= |db.attempts| && o in db.ops
  {
    if k == 0 then db.ops[o] else
      var op := OpAfter(db, k - 1, now, o);
      if Abandoned(db, k - 1, now) && db.attempts[k - 1].op == o
      then AbandonedOp(op, db.attempts[k - 1].state == Reserved) else op
  }

  /** A turn for an abandoned attempt writes its operation, and any other turn writes none. */
  lemma TurnWrites(before: Ledger, seen: Ledger, i: AttemptId, now: Time)
    requires Linked(before, i)
    ensures var a := before.attempts[i];
      ReconcileAttempt(before, seen, i, now).ops
      == if Abandoned(seen, i, now)
         then before.ops[a.op := AbandonedOp(before.ops[a.op], a.state == Reserved)] else before.ops
  {
  }

  lemma TurnOp(before: Ledger, next: Ledger, i: AttemptId, taken: bool, o: OpId)
    requires Linked(before, i) && o in before.ops
    requires var a := before.attempts[i];
      next.ops == if taken then before.ops[a.op := AbandonedOp(before.ops[a.op], a.state == Reserved)] else before.ops
    ensures o in next.ops
    ensures next.ops[o] == if taken && before.attempts[i].op == o
                           then AbandonedOp(before.ops[o], before.attempts[i].state == Reserved) else before.ops[o]
  {
  }

  lemma LoopLinks(db: Ledger, i: AttemptId, now: Time)
    requires Inv(db) && i < |db.attempts|
    ensures Linked(ReconcileAttempts(db, db, i, now), i)
    ensures ReconcileAttempts(db, db, i, now).attempts[i] == db.attempts[i]
  {
    ReconcileAttemptsSound(db, i, now);
    assert AttemptInv(ReconcileAttempts(db, db, i, now), i);
  }

  lemma {:induction false} LoopOps(db: Ledger, k: nat, now: Time, o: OpId)
    requires Inv(db) && k <= |db.attempts| && o in db.ops
    ensures o in ReconcileAttempts(db, db, k, now).ops
    ensures ReconcileAttempts(db, db, k, now).ops[o] == OpAfter(db, k, now, o)
    decreases k
  {
    if k > 0 {
      LoopOps(db, k - 1, now, o);
      LoopLinks(db, k - 1, now);
      var before := ReconcileAttempts(db, db, k - 1, now);
      TurnWrites(before, db, k - 1, now);
      TurnOp(before, ReconcileAttempts(db, db, k, now), k - 1, Abandoned(db, k - 1, now), o);
    }
  }

  lemma LoopKeepsKeys(db: Ledger, k: nat, now: Time)
    requires Inv(db) && k <= |db.attempts|
    ensures db.roots.Keys <= ReconcileAttempts(db, db, k, now).roots.Keys
  {
    ReconcileAttemptsSound(db, k, now);
    forall r | r in db.roots ensures r in ReconcileAttempts(db, db, k, now).roots {
      assert RootKept(db, ReconcileAttempts(db, db, k, now), r);
    }
  }

  lemma {:induction false} OpAfterKeeps(db: Ledger, k: nat, now: Time, o: OpId)
    requires k <= |db.attempts| && o in db.ops
    ensures var op := OpAfter(db, k, now, o);
      op.spec == db.ops[o].spec && (!Open(db.ops[o]) ==> op == db.ops[o])
    decreases k
  {
    if k > 0 {
      OpAfterKeeps(db, k - 1, now, o);
    }
  }

  lemma {:induction false} OpAfterUntouched(db: Ledger, k: nat, now: Time, o: OpId)
    requires k <= |db.attempts| && o in db.ops
    requires forall i :: 0 <= i < k && db.attempts[i].op == o ==> !Abandoned(db, i, now)
    ensures OpAfter(db, k, now, o) == db.ops[o]
    decreases k
  {
    if k > 0 {
      OpAfterUntouched(db, k - 1, now, o);
    }
  }

  lemma {:induction false} OpAfterTaken(db: Ledger, k: nat, now: Time, i: AttemptId)
    requires Inv(db) && i < k <= |db.attempts| && Abandoned(db, i, now)
    ensures var o := db.attempts[i].op;
      OpAfter(db, k, now, o) == AbandonedOp(db.ops[o], db.attempts[i].state == Reserved)
    decreases k
  {
    var o := db.attempts[i].op;
    if k - 1 == i {
      forall j | 0 <= j < i && db.attempts[j].op == o ensures !Abandoned(db, j, now) {
        AtMostOneLiveOf(db, i, j);
      }
      OpAfterUntouched(db, i, now, o);
    } else {
      OpAfterTaken(db, k - 1, now, i);
      if db.attempts[k - 1].op == o {
        AtMostOneLiveOf(db, i, k - 1);
      }
    }
  }

  lemma {:induction false} LoopKeepsRoots(db: Ledger, k: nat, now: Time)
    requires Inv(db) && k <= |db.attempts|
    ensures ReconcileAttempts(db, db, k, now).roots == db.roots && ReconcileAttempts(db, db, k, now).pools == db.pools
    decreases k
  {
    if k > 0 {
      LoopKeepsRoots(db, k - 1, now);
      LoopLinks(db, k - 1, now);
      assert AttemptInv(db, k - 1);
      TurnKeepsRoots(ReconcileAttempts(db, db, k - 1, now), db, k - 1, now);
    }
  }

  lemma TurnKeepsRoots(db: Ledger, seen: Ledger, i: AttemptId, now: Time)
    requires i < |db.attempts| == |seen.attempts| && db.attempts[i] == seen.attempts[i]
    requires db.attempts[i].state == Reserved ==> !db.attempts[i].budgetHeld
    ensures ReconcileAttempt(db, seen, i, now).roots == db.roots && ReconcileAttempt(db, seen, i, now).pools == db.pools
  {
    if Linked(db, i) {
      assert db.roots[db.attempts[i].root := db.roots[db.attempts[i].root]] == db.roots;
    }
  }

  lemma AtMostOneLiveOf(db: Ledger, i: AttemptId, j: AttemptId)
    requires Inv(db) && i < |db.attempts| && j < |db.attempts| && i != j && db.attempts[i].op == db.attempts[j].op
    requires !Final(db.attempts[i].state)
    ensures Final(db.attempts[j].state)
  {
    assert AttemptInv(db, i) && AttemptInv(db, j);
  }

  // ---------------------------------------------------------------- what reconciliation comes to

  /** The ledger after the attempt loop, and after the operations that are late or impossible were ended. */
  function Looped(db: Ledger, now: Time): Ledger {
    var db1 := TerminateAll(db, ExpiredOps(db, now), OpFailed, OperationDeadline);
    ReconcileAttempts(db1, db1, |db1.attempts|, now)
  }

  /** After reconciliation an operation is open only before its own deadline, in a running run before the run's. */
  lemma ReconcileCloses(db: Ledger, page: set<OpId>, now: Time, o: OpId)
    requires Inv(db) && o in db.ops
    ensures var next := Reconcile(db, page, now);
      && o in next.ops && next.ops[o].spec == db.ops[o].spec && db.ops[o].spec.root in next.roots
      && (Open(next.ops[o]) ==>
            && Ahead(db.ops[o].spec.deadline, now)
            && next.roots[db.ops[o].spec.root].state == Running && next.roots[db.ops[o].spec.root].spec.deadline > now)
  {
    LoopedCloses(db, now, o);
    PhasesClose(Looped(db, now), page, now, o);
  }

  lemma LoopedCloses(db: Ledger, now: Time, o: OpId)
    requires Inv(db) && o in db.ops
    ensures var mid := Looped(db, now);
      && o in mid.ops && mid.ops[o].spec == db.ops[o].spec && db.ops[o].spec.root in mid.roots
      && (Open(mid.ops[o]) ==> Ahead(db.ops[o].spec.deadline, now))
  {
    var db1 := TerminateAll(db, ExpiredOps(db, now), OpFailed, OperationDeadline);
    TerminateAllSound(db, ExpiredOps(db, now), OpFailed, OperationDeadline);
    assert OpInv(db, o);
    LoopOps(db1, |db1.attempts|, now, o);
    OpAfterKeeps(db1, |db1.attempts|, now, o);
    LoopKeepsKeys(db1, |db1.attempts|, now);
  }

  /** The phases after the attempt loop. */
  function Phases(db: Ledger, page: set<OpId>, now: Time): Ledger {
    var db3 := TerminateAll(db, LateOps(db, now), OpFailed, DeadlineExceeded);
    var db4 := TerminateAll(db3, ImpossibleOps(db3, page), OpFailed, ImpossibleRequest);
    var db5 := FailLateRoots(db4, now);
    TerminateAll(db5, OrphanedOps(db5), OpCancelled, RootTerminal)
  }

  lemma PhasesClose(db: Ledger, page: set<OpId>, now: Time, o: OpId)
    requires o in db.ops && db.ops[o].spec.root in db.roots
    ensures var next := Phases(db, page, now);
      && o in next.ops && next.ops[o].spec == db.ops[o].spec && next.roots.Keys == db.roots.Keys
      && (!Open(db.ops[o]) ==> next.ops[o] == db.ops[o])
      && (Open(next.ops[o]) ==>
            next.roots[db.ops[o].spec.root].state == Running && next.roots[db.ops[o].spec.root].spec.deadline > now)
  {
  }

  /** Runs past their deadline fail, and no other run changes. */
  lemma ReconcileFailsRuns(db: Ledger, page: set<OpId>, now: Time, r: RootId)
    requires Inv(db) && r in db.roots
    ensures var next := Reconcile(db, page, now);
      r in next.roots
      && next.roots[r] == if db.roots[r].state == Running && db.roots[r].spec.deadline <= now
                          then db.roots[r].(state := Failed, reason := DeadlineExceeded) else db.roots[r]
  {
    LoopedRoots(db, now);
  }

  lemma LoopedRoots(db: Ledger, now: Time)
    requires Inv(db)
    ensures Looped(db, now).roots == db.roots && Looped(db, now).pools == db.pools
  {
    var db1 := TerminateAll(db, ExpiredOps(db, now), OpFailed, OperationDeadline);
    TerminateAllSound(db, ExpiredOps(db, now), OpFailed, OperationDeadline);
    LoopKeepsRoots(db1, |db1.attempts|, now);
  }

  /** The run of the operation goes on. */
  predicate InTime(db: Ledger, o: OpId, now: Time) {
    && o in db.ops && db.ops[o].spec.root in db.roots && Ahead(db.ops[o].spec.deadline, now)
    && db.roots[db.ops[o].spec.root].state == Running && db.roots[db.ops[o].spec.root].spec.deadline > now
  }

  lemma PhasesSpare(db: Ledger, page: set<OpId>, now: Time, o: OpId)
    requires InTime(db, o, now)
    ensures var next := Phases(db, page, now);
      o in next.ops
      && next.ops[o] == if o in page && Queued(db.ops[o].state) && Impossible(db, db.ops[o].spec)
                        then db.ops[o].(state := OpFailed, reason := ImpossibleRequest) else db.ops[o]
  {
  }

  /** An operation in time whose attempts have living owners is left alone, unless it is queued and impossible. */
  lemma ReconcileSpares(db: Ledger, page: set<OpId>, now: Time, o: OpId)
    requires Inv(db) && InTime(db, o, now) && Open(db.ops[o])
    requires forall i :: 0 <= i < |db.attempts| && db.attempts[i].op == o ==>
      Final(db.attempts[i].state) || !Lapsed(db, db.attempts[i], now)
    ensures var next := Reconcile(db, page, now);
      o in next.ops
      && next.ops[o] == if o in page && Queued(db.ops[o].state) && Impossible(db, db.ops[o].spec)
                        then db.ops[o].(state := OpFailed, reason := ImpossibleRequest) else db.ops[o]
  {
    var db1 := TerminateAll(db, ExpiredOps(db, now), OpFailed, OperationDeadline);
    TerminateAllSound(db, ExpiredOps(db, now), OpFailed, OperationDeadline);
    assert db1.ops[o] == db.ops[o];
    LoopOps(db1, |db1.attempts|, now, o);
    OpAfterUntouched(db1, |db1.attempts|, now, o);
    LoopedRoots(db, now);
    PhasesSpare(Looped(db, now), page, now, o);
    ImpossibleStays(db, Looped(db, now), db.ops[o].spec);
  }

  lemma ImpossibleStays(x: Ledger, y: Ledger, s: OpSpec)
    requires x.pools == y.pools
    ensures Impossible(x, s) <==> Impossible(y, s)
  {
  }

  /**
   An operation in time whose attempt lost its owner is queued again if nothing was sent,
   and else waits for evidence.
   */
  lemma ReconcileGivesBack(db: Ledger, page: set<OpId>, now: Time, i: AttemptId)
    requires Inv(db) && i < |db.attempts| && Lapsed(db, db.attempts[i], now)
    requires db.attempts[i].state == Reserved || db.attempts[i].state == SendIntent
    requires InTime(db, db.attempts[i].op, now) && Open(db.ops[db.attempts[i].op])
    ensures var next, o := Reconcile(db, page, now), db.attempts[i].op;
      && o in next.ops
      && if db.attempts[i].state == Reserved
         then next.ops[o].active == None
              && next.ops[o].state == if o in page && Impossible(db, db.ops[o].spec) then OpFailed else Ready
         else next.ops[o] == db.ops[o].(state := Reconciling, reason := UnknownComputeOrResult)
  {
    var db1, o := TerminateAll(db, ExpiredOps(db, now), OpFailed, OperationDeadline), db.attempts[i].op;
    TerminateAllSound(db, ExpiredOps(db, now), OpFailed, OperationDeadline);
    assert AttemptInv(db, i) && db1.ops[o] == db.ops[o] && Abandoned(db1, i, now);
    LoopOps(db1, |db1.attempts|, now, o);
    OpAfterTaken(db1, |db1.attempts|, now, i);
    LoopedRoots(db, now);
    PhasesSpare(Looped(db, now), page, now, o);
    ImpossibleStays(db, Looped(db, now), db.ops[o].spec);
  }

  /** A pool that would serve the operation but for its profile, revision and limits. */
  predicate Alike(pool: PoolSpec, s: OpSpec) {
    pool.model == s.model && pool.unit == s.unit && forall c :: c in s.capabilities ==> c in pool.capabilities
  }

  /** A request is impossible if there are pools of its kind and none of them serves it. */
  lemma ImpossibleIff(db: Ledger, s: OpSpec)
    ensures Impossible(db, s) <==>
      (exists p :: p in db.pools && Alike(db.pools[p].spec, s)) && forall p :: p in db.pools
                                                                               ==> !Serves(db.pools[p].spec, s)
  {
    var like := set p | p in db.pools && db.pools[p].spec.model == s.model && db.pools[p].spec.unit == s.unit
                        && s.capabilities <= db.pools[p].spec.capabilities;
    forall p | p in db.pools ensures p in like <==> Alike(db.pools[p].spec, s) {
    }
    assert like != {} <==> exists p :: p in db.pools && Alike(db.pools[p].spec, s) by {
      if p :| p in db.pools && Alike(db.pools[p].spec, s) {
        assert p in like;
      }
    }
  }

  // ---------------------------------------------------------------- evidence

  lemma {:induction false} ProvenElsewhere(db: Ledger, p: PoolId, epoch: Epoch, e: Evidence, k: nat, o: OpId, now: Time)
    requires Inv(db) && k <= |db.attempts| && o in db.ops
    requires forall j :: 0 <= j < k && db.attempts[j].op == o ==> !Proven(db.attempts[j], j, p, epoch, e)
    ensures var next := SettleProven(db, db.attempts, p, epoch, e, k, now); o in next.ops && next.ops[o] == db.ops[o]
    decreases k
  {
    if k > 0 {
      var before := SettleProven(db, db.attempts, p, epoch, e, k - 1, now);
      ProvenElsewhere(db, p, epoch, e, k - 1, o, now);
      SettleProvenSound(db, p, epoch, e, k - 1, now);
      OtherTurn(before, db.attempts[k - 1], k - 1, p, epoch, e, o, now);
    }
  }

  /** A turn for another operation's attempt, or for one that is not proven, leaves the operation alone. */
  lemma OtherTurn(before: Ledger, seen: Attempt, i: AttemptId, p: PoolId, epoch: Epoch, e: Evidence, o: OpId, now: Time)
    requires i < |before.attempts| && before.attempts[i] == seen && o in before.ops
    requires seen.op == o ==> !Proven(seen, i, p, epoch, e)
    ensures var next := SettleProvenAt(before, seen, i, p, epoch, e, now); o in next.ops && next.ops[o] == before.ops[o]
  {
    if Proven(seen, i, p, epoch, e) && Linked(before, i) {
      var recover, error := e.IdleSince? || e.recover, if e.IdleSince? then EngineIdle else EngineStopped;
      SettleStoppedDoes(before, i, seen, before.ops[seen.op], recover, error, EngineRecovery, now);
    }
  }

  /** Whether evidence offers the operation another attempt, and the reason it fails with otherwise. */
  predicate OffersRecovery(e: Evidence) {
    match e
    case EpochStopped(recover) => recover
    case IdleSince(_, _) => true
  }

  function ErrorOf(e: Evidence): Why {
    match e
    case EpochStopped(_) => EngineStopped
    case IdleSince(_, _) => EngineIdle
  }

  /**
   Evidence ends each attempt it proves over in a turn of its own, which decides the
   fate of its operation on the books of that turn; later turns do not touch it.
   */
  lemma {:induction false} EvidenceDecidesOperation(db: Ledger, p: PoolId, epoch: Epoch, e: Evidence, k: nat,
                                                    i: AttemptId, now: Time)
    requires Inv(db) && i < k <= |db.attempts| && Proven(db.attempts[i], i, p, epoch, e)
    ensures var next, turn := SettleProven(db, db.attempts, p, epoch, e, k, now),
                              SettleProven(db, db.attempts, p, epoch, e, i + 1, now);
      var a := db.attempts[i];
      && a.op in db.ops && a.op in next.ops && a.op in turn.ops && next.ops[a.op] == turn.ops[a.op]
        && a.root in turn.roots
      && StoppedFate(db.ops[a.op], turn.roots[a.root], next.ops[a.op], i, a, OffersRecovery(e), ErrorOf(e), now)
    decreases k
  {
    if k - 1 == i {
      OwnTurn(db, p, epoch, e, i, now);
    } else {
      EvidenceDecidesOperation(db, p, epoch, e, k - 1, i, now);
      LaterTurn(db, p, epoch, e, k - 1, i, now);
    }
  }

  /** Two attempts that evidence proves over are live, so they belong to different operations. */
  lemma ProvenApart(db: Ledger, p: PoolId, epoch: Epoch, e: Evidence, i: AttemptId, j: AttemptId)
    requires Inv(db) && i < |db.attempts| && j < |db.attempts| && i != j && db.attempts[i].op == db.attempts[j].op
    requires Proven(db.attempts[i], i, p, epoch, e)
    ensures !Proven(db.attempts[j], j, p, epoch, e)
  {
    assert AttemptInv(db, i) && AttemptInv(db, j);
    AtMostOneLiveOf(db, i, j);
  }

  lemma OwnTurn(db: Ledger, p: PoolId, epoch: Epoch, e: Evidence, i: AttemptId, now: Time)
    requires Inv(db) && i < |db.attempts| && Proven(db.attempts[i], i, p, epoch, e)
    ensures var turn, a := SettleProven(db, db.attempts, p, epoch, e, i + 1, now), db.attempts[i];
      && a.op in db.ops && a.op in turn.ops && a.root in turn.roots
      && StoppedFate(db.ops[a.op], turn.roots[a.root], turn.ops[a.op], i, a, OffersRecovery(e), ErrorOf(e), now)
  {
    var a := db.attempts[i];
    var before := SettleProven(db, db.attempts, p, epoch, e, i, now);
    SettleProvenSound(db, p, epoch, e, i, now);
    assert AttemptInv(db, i) && AttemptInv(before, i);
    forall j | 0 <= j < i && db.attempts[j].op == a.op ensures !Proven(db.attempts[j], j, p, epoch, e) {
      ProvenApart(db, p, epoch, e, i, j);
    }
    ProvenElsewhere(db, p, epoch, e, i, a.op, now);
    SettleStoppedDoes(before, i, a, before.ops[a.op], OffersRecovery(e), ErrorOf(e), EngineRecovery, now);
  }

  lemma LaterTurn(db: Ledger, p: PoolId, epoch: Epoch, e: Evidence, k: nat, i: AttemptId, now: Time)
    requires Inv(db) && i < k < |db.attempts| && Proven(db.attempts[i], i, p, epoch, e)
    requires db.attempts[i].op in SettleProven(db, db.attempts, p, epoch, e, k, now).ops
    ensures var o, before := db.attempts[i].op, SettleProven(db, db.attempts, p, epoch, e, k, now);
      var next := SettleProven(db, db.attempts, p, epoch, e, k + 1, now);
      o in next.ops && next.ops[o] == before.ops[o]
  {
    SettleProvenSound(db, p, epoch, e, k, now);
    if db.attempts[k].op == db.attempts[i].op {
      ProvenApart(db, p, epoch, e, i, k);
    }
    OtherTurn(SettleProven(db, db.attempts, p, epoch, e, k, now), db.attempts[k], k, p, epoch, e, db.attempts[i].op,
              now);
  }

  /** The row of an attempt that was settled: it holds nothing any more. */
  predicate GivenUp(a: Attempt, b: Attempt) {
    SameAttempt(a, b) && b.state == AttemptFailed && !b.computeHeld && !b.budgetHeld && b.finished
  }

  /** Idle evidence ends exactly the attempts of the pool's epoch that it names, lost before the first probe. */
  lemma SettleIdleIff(db: Ledger, p: PoolId, epoch: Epoch, since: Time, ids: set<AttemptId>, now: Time, i: AttemptId)
    requires Inv(db) && i < |db.attempts|
    ensures var next, a := SettleIdle(db, p, epoch, since, ids, now), db.attempts[i];
      && |next.attempts| == |db.attempts|
      && if p in db.pools && db.pools[p].epoch == epoch && a.pool == p && a.epoch == epoch && a.computeHeld
            && a.state == Unknown && a.unknownAt.Some? && a.unknownAt.value < since && i in ids
         then GivenUp(a, next.attempts[i]) else next.attempts[i] == a
  {
    if p in db.pools && db.pools[p].epoch == epoch {
      if Proven(db.attempts[i], i, p, epoch, IdleSince(since, ids)) {
        ProvenRow(db, p, epoch, IdleSince(since, ids), |db.attempts|, i, now);
      } else {
        UnprovenRow(db, p, epoch, IdleSince(since, ids), |db.attempts|, i, now);
      }
    }
  }

  /**
   Evidence that an epoch stopped is refused for another epoch, and for recovery on
   a healthy pool.  It ends every attempt of the epoch that holds anything, but
   leaves a finished one its commit if recovery is asked for.
   */
  lemma ConfirmStoppedIff(db: Ledger, p: PoolId, epoch: Epoch, recover: bool, now: Time, i: AttemptId)
    requires Inv(db) && i < |db.attempts|
    ensures var t, a := ConfirmEpochStopped(db, p, epoch, recover, now), db.attempts[i];
      && (t.Commit? <==> p in db.pools && db.pools[p].epoch == epoch && !(recover && db.pools[p].health == Healthy))
      && (t.Commit? ==>
            && |t.db.attempts| == |db.attempts|
            && if a.pool == p && a.epoch == epoch && (a.computeHeld || a.budgetHeld)
                  && !(recover && a.state == BackendFinished && !a.computeHeld)
               then GivenUp(a, t.db.attempts[i]) else t.db.attempts[i] == a)
  {
    if ConfirmEpochStopped(db, p, epoch, recover, now).Commit? {
      var closed := db.(pools := db.pools[p := db.pools[p].(target := 0, health := Unavailable)]);
      EvolvesRefl(db);
      ElsewhereSound(db, db, closed);
      if Proven(db.attempts[i], i, p, epoch, EpochStopped(recover)) {
        ProvenRow(closed, p, epoch, EpochStopped(recover), |db.attempts|, i, now);
      } else {
        UnprovenRow(closed, p, epoch, EpochStopped(recover), |db.attempts|, i, now);
      }
    }
  }

  /** A result is lost if its inference ended and nobody is left to commit it. */
  lemma SettleLostIff(db: Ledger, k: AttemptId, now: Time, i: AttemptId)
    requires Inv(db) && i < |db.attempts|
    ensures var next, a := SettleLost(db, k, now), db.attempts[i];
      && |next.attempts| == |db.attempts|
      && if i == k && !a.computeHeld
        && ((a.state == BackendFinished && Lapsed(db, a, now)) || (a.state == Unknown && a.finished))
         then GivenUp(a, next.attempts[i]) else next.attempts[i] == a
  {
    assert AttemptInv(db, i);
  }

  /** Reconciliation takes back what was not sent for nobody, and asks for evidence of what was. */
  lemma ReconcileAttemptsDoes(db: Ledger, page: set<OpId>, now: Time, i: AttemptId)
    requires Inv(db) && i < |db.attempts|
    ensures var next, a := Reconcile(db, page, now), db.attempts[i];
      && |next.attempts| == |db.attempts| && a.op in db.ops
      && var over := !Open(db.ops[a.op]) || !Ahead(db.ops[a.op].spec.deadline, now);
         if a.state == Reserved && (Lapsed(db, a, now) || over)
         then next.attempts[i] == a.(state := FailedNotSent)
         else if a.state == SendIntent && Lapsed(db, a, now)
         then next.attempts[i] == a.(state := Unknown, unknownAt := Some(now)) else next.attempts[i] == a
  {
    assert AttemptInv(db, i);
    var db1 := TerminateAll(db, ExpiredOps(db, now), OpFailed, OperationDeadline);
    TerminateAllSound(db, ExpiredOps(db, now), OpFailed, OperationDeadline);
    assert AttemptInv(db1, i);
    if Abandoned(db1, i, now) {
      ReconciledRow(db1, |db1.attempts|, i, now);
    } else {
      UnabandonedRow(db1, |db1.attempts|, i, now);
    }
  }
}
