/**
 Every transaction of the ledger keeps the invariant, and none undoes what the
 ledger has already recorded as final.

 A transaction that touches one live attempt is proved in two parts: what it does
 to the rows of the attempt, its operation and its root, with no ledger in sight,
 and the lemma that such a change of rows is sound in any ledger (`PutSound`).
 Transactions that end operations go through `EndOpsSound` in the same way.
 Loops are sound by induction over the rows they have passed.
 */
module LedgerSteps {
  import opened Ledger
  import opened LedgerInvariant

  // ---------------------------------------------------------------- what never goes back

  /** The attempt may still be sent, or its computation is not known to be over. */
  predicate Claims(a: Attempt) {
    a.state == Reserved || a.computeHeld
  }

  predicate AttemptEvolves(a: Attempt, b: Attempt) {
    && SameAttempt(a, b)
    && (Final(a.state) ==> b == a)
    && (a.sent ==> b.sent)
    && (a.finished ==> b.finished)
    && (!Claims(a) ==> !Claims(b))
  }

  predicate OpEvolves(x: Operation, y: Operation) {
    y.spec == x.spec && (Terminal(x.state) ==> y.state == x.state && y.result == x.result && y.reason == x.reason)
  }

  predicate RootEvolves(x: Root, y: Root) {
    y.spec == x.spec && (x.state != Running ==> y.state == x.state && y.result == x.result && y.reason == x.reason)
  }

  predicate OpKept(db: Ledger, next: Ledger, o: OpId) {
    o in db.ops && o in next.ops && OpEvolves(db.ops[o], next.ops[o])
  }

  predicate RootKept(db: Ledger, next: Ledger, r: RootId) {
    r in db.roots && r in next.roots && RootEvolves(db.roots[r], next.roots[r])
  }

  ghost predicate Evolves(db: Ledger, next: Ledger) {
    && |db.attempts| <= |next.attempts|
    && (forall i {:trigger AttemptEvolves(db.attempts[i], next.attempts[i])} :: 0 <= i < |db.attempts| ==>
          AttemptEvolves(db.attempts[i], next.attempts[i]))
    && (forall o {:trigger OpKept(db, next, o)} :: o in db.ops ==> OpKept(db, next, o))
    && (forall r {:trigger RootKept(db, next, r)} :: r in db.roots ==> RootKept(db, next, r))
    && (forall b :: b in db.bindings ==> b in next.bindings && next.bindings[b] == db.bindings[b])
    && db.completions <= next.completions
  }

  lemma EvolvesRefl(db: Ledger)
    ensures Evolves(db, db)
  {
  }

  lemma EvolvesTrans(x: Ledger, y: Ledger, z: Ledger)
    requires Evolves(x, y) && Evolves(y, z)
    ensures Evolves(x, z)
  {
    forall i | 0 <= i < |x.attempts| ensures AttemptEvolves(x.attempts[i], z.attempts[i]) {
      assert AttemptEvolves(x.attempts[i], y.attempts[i]) && AttemptEvolves(y.attempts[i], z.attempts[i]);
    }
    forall o | o in x.ops ensures OpKept(x, z, o) {
      assert OpKept(x, y, o) && OpKept(y, z, o);
    }
    forall r | r in x.roots ensures RootKept(x, z, r) {
      assert RootKept(x, y, r) && RootKept(y, z, r);
    }
  }

  /** A sound step: the invariant is kept and nothing final is undone. */
  ghost predicate Sound(db: Ledger, next: Ledger) {
    Inv(next) && Evolves(db, next)
  }

  lemma SoundAt(db: Ledger, next: Ledger, i: AttemptId)
    requires Inv(db) && OnlyAt(db, next, i) && Moves(db, next, i) && !Final(db.attempts[i].state)
    requires AttemptEvolves(db.attempts[i], next.attempts[i])
    requires OpEvolves(db.ops[db.attempts[i].op], next.ops[db.attempts[i].op])
    requires RootEvolves(db.roots[db.attempts[i].root], next.roots[db.attempts[i].root])
    ensures Sound(db, next)
  {
    InvAt(db, next, i);
  }

  lemma WrittenOnlyAt(db: Ledger, i: AttemptId, b: Attempt, op: Operation, root: Root, pools: map<PoolId, Pool>,
                      publish: bool)
    requires Linked(db, i) && SameAttempt(db.attempts[i], b)
    requires op.spec == db.ops[b.op].spec && root.budgets.Keys == db.roots[b.root].budgets.Keys
    ensures var next := Written(db, i, b, op, root, pools, publish);
      && OnlyAt(db, next, i)
      && next.attempts[i] == b && next.ops[b.op] == op && next.roots[b.root] == root
      && next.completions == db.completions + (if publish then BindingsOf(db.bindings, {b.op}) else {})
  {
  }

  /** What the invariant says of the rows of a live attempt. */
  predicate RowsInv(i: AttemptId, a: Attempt, op: Operation, root: Root) {
    && !Final(a.state) && AttemptOk(a) && !Stranded(a)
    && op.active == Some(i) && !Queued(op.state)
    && (op.result.Some? <==> op.state == OpSucceeded)
    && op.attempts <= op.spec.maxAttempts
    && RootOk(root) && a.unit in root.budgets
  }

  /** The rows of a live attempt move as the invariant allows. */
  predicate RowsMove(i: AttemptId, a: Attempt, op: Operation, root: Root, b: Attempt, op': Operation, root': Root,
                     publish: bool) {
    && AttemptOk(b) && !Stranded(b) && AttemptEvolves(a, b)
    && OpMoves(op, op', i, a, b) && OpEvolves(op, op')
    && RootMoves(root, root', a, b) && RootEvolves(root, root')
    && (if publish then Terminal(op'.state) else Terminal(op'.state) == Terminal(op.state))
  }

  lemma PutSound(db: Ledger, i: AttemptId, b: Attempt, op: Operation, root: Root, pools: map<PoolId, Pool>,
                 publish: bool)
    requires Inv(db) && Linked(db, i) && !Final(db.attempts[i].state)
    requires RowsMove(i, db.attempts[i], db.ops[db.attempts[i].op], db.roots[db.attempts[i].root], b, op, root, publish)
    ensures Sound(db, Written(db, i, b, op, root, pools, publish))
  {
    WrittenOnlyAt(db, i, b, op, root, pools, publish);
    var next := Written(db, i, b, op, root, pools, publish);
    assert db.completions + {} == db.completions;
    assert Moves(db, next, i);
    SoundAt(db, next, i);
  }

  // ---------------------------------------------------------------- settlement of one attempt

  lemma SettledRootMoves(x: Root, a: Attempt, b: Attempt, usage: Option<nat>)
    requires RootOk(x) && AttemptOk(a) && a.unit in x.budgets
    requires var c := SettledAttempt(a, usage);
      SameAttempt(c, b) && b.sent == c.sent && b.usage == c.usage && b.budgetHeld == c.budgetHeld
    ensures RootMoves(x, SettledRoot(x, a, usage), a, b) && RootEvolves(x, SettledRoot(x, a, usage))
  {
    var y := SettledRoot(x, a, usage);
    forall u | u in x.budgets ensures BudgetMoves(x.budgets[u], y.budgets[u], a, b, a.root, u) {
    }
  }

  lemma SameRootMoves(x: Root, a: Attempt, b: Attempt)
    requires RootOk(x) && SameAttempt(a, b) && a.sent == b.sent && a.usage == b.usage && a.budgetHeld == b.budgetHeld
    ensures RootMoves(x, x, a, b)
  {
  }

  lemma RowsAt(db: Ledger, i: AttemptId)
    requires Inv(db) && Linked(db, i) && !Final(db.attempts[i].state)
    ensures RowsInv(i, db.attempts[i], db.ops[db.attempts[i].op], db.roots[db.attempts[i].root])
  {
    assert AttemptInv(db, i);
    assert OpInv(db, db.attempts[i].op) && RootInv(db, db.attempts[i].root);
  }

  // ---------------------------------------------------------------- transactions of the owner

  lemma MarkSendRows(i: AttemptId, a: Attempt, op: Operation, root: Root)
    requires RowsInv(i, a, op, root) && a.state == Reserved
    requires op.state == Executing && root.state == Running
    requires op.attempts < op.spec.maxAttempts && root.attempts < root.spec.maxAttempts
    requires root.budgets[a.unit].spent + root.budgets[a.unit].reserved + a.bound <= root.budgets[a.unit].limit
    ensures RowsMove(i, a, op, root, SentAttempt(a), op.(attempts := op.attempts + 1), ChargedRoot(root, a), false)
  {
    var y := ChargedRoot(root, a);
    forall u | u in root.budgets ensures BudgetMoves(root.budgets[u], y.budgets[u], a, SentAttempt(a), a.root, u) {
    }
  }

  lemma MarkSendSound(db: Ledger, res: Reservation, now: Time)
    requires Inv(db) && MarkSend(db, res, now).Commit?
    ensures Sound(db, MarkSend(db, res, now).db)
  {
    var a := db.attempts[res.attempt];
    RowsAt(db, res.attempt);
    MarkSendRows(res.attempt, a, db.ops[a.op], db.roots[a.root]);
    PutSound(db, res.attempt, SentAttempt(a), db.ops[a.op].(attempts := db.ops[a.op].attempts + 1),
             ChargedRoot(db.roots[a.root], a), db.pools, false);
  }

  /** A change of the attempt row alone that touches no budget. */
  lemma AttemptOnlySound(db: Ledger, i: AttemptId, b: Attempt)
    requires Inv(db) && Linked(db, i) && !Final(db.attempts[i].state)
    requires AttemptOk(b) && !Stranded(b) && AttemptEvolves(db.attempts[i], b)
    requires var a := db.attempts[i]; a.sent == b.sent && a.usage == b.usage && a.budgetHeld == b.budgetHeld
    requires !Final(b.state) && Carries(db.ops[b.op], b.state)
    ensures Sound(db, db.(attempts := db.attempts[i := b]))
  {
    var a := db.attempts[i];
    var op, root := db.ops[a.op], db.roots[a.root];
    RowsAt(db, i);
    SameRootMoves(root, a, b);
    PutSound(db, i, b, op, root, db.pools, false);
    assert db.ops == db.ops[a.op := op] && db.roots == db.roots[a.root := root];
  }

  lemma HeartbeatSound(db: Ledger, res: Reservation, now: Time)
    requires Inv(db) && Heartbeat(db, res, now).Commit?
    ensures Sound(db, Heartbeat(db, res, now).db)
  {
    var a := db.attempts[res.attempt];
    assert AttemptInv(db, res.attempt) && OpInv(db, a.op);
    EvolvesRefl(db);
    if Heartbeat(db, res, now).db != db {
      AttemptOnlySound(db, res.attempt, a.(lease := now + db.leaseSeconds));
    }
  }

  lemma ComputeFinishedSound(db: Ledger, res: Reservation)
    requires Inv(db) && ComputeFinished(db, res).Commit?
    ensures Sound(db, ComputeFinished(db, res).db)
  {
    var a := db.attempts[res.attempt];
    assert AttemptInv(db, res.attempt) && OpInv(db, a.op);
    EvolvesRefl(db);
    if !Final(a.state) {
      AttemptOnlySound(db, res.attempt, a.(computeHeld := false, finished := true, state := BackendFinished));
    }
  }

  /** The operation rows that the transactions write all move soundly. */
  lemma OpRowsMove(op: Operation, op': Operation, i: AttemptId, a: Attempt, b: Attempt)
    requires (op.result.Some? <==> op.state == OpSucceeded) && op.attempts <= op.spec.maxAttempts
    requires op.active == Some(i) && !Queued(op.state) && SameAttempt(a, b) && a.sent == b.sent
    requires op' == op.(state := op'.state, active := op'.active, reason := op'.reason, retryAt := op'.retryAt,
                        result := op'.result)
    requires op'.active == op.active || (op'.active == None && Queued(op'.state))
    requires op'.result.Some? <==> op'.state == OpSucceeded
    requires if Terminal(op.state) then op' == op
             else if b.state == Unknown then op'.state == Reconciling || Terminal(op'.state)
             else Final(b.state) && !InFlight(op'.state)
    requires Terminal(op.state) || Final(b.state) || op'.active == Some(i)
    ensures OpMoves(op, op', i, a, b) && OpEvolves(op, op')
  {
  }

  lemma CommitResultRows(i: AttemptId, a: Attempt, op: Operation, root: Root, artifact: Blob, usage: Option<nat>,
                         now: Time)
    requires RowsInv(i, a, op, root) && !Claims(a)
    ensures RowsMove(i, a, op, root, SettledAttempt(a, usage).(state := ResultCommitted),
                     AnsweredOp(op, root, artifact, now),
                     SettledRoot(root, a, usage), true)
  {
    SettledRootMoves(root, a, SettledAttempt(a, usage).(state := ResultCommitted), usage);
    OpRowsMove(op, AnsweredOp(op, root, artifact, now), i, a, SettledAttempt(a, usage).(state := ResultCommitted));
  }

  lemma CommitResultSound(db: Ledger, res: Reservation, artifact: Blob, usage: Option<nat>, now: Time)
    requires Inv(db) && CommitResult(db, res, artifact, usage, now).Commit?
    ensures Sound(db, CommitResult(db, res, artifact, usage, now).db)
  {
    var a := db.attempts[res.attempt];
    if a.state == ResultCommitted {
      EvolvesRefl(db);
    } else {
      var op, root := db.ops[a.op], db.roots[a.root];
      RowsAt(db, res.attempt);
      CommitResultRows(res.attempt, a, op, root, artifact, usage, now);
      PutSound(db, res.attempt, SettledAttempt(a, usage).(state := ResultCommitted),
               AnsweredOp(op, root, artifact, now), SettledRoot(root, a, usage),
               SettledPools(db.pools, a, usage), true);
    }
  }

  lemma UncertainRows(i: AttemptId, a: Attempt, op: Operation, root: Root, at: Option<Time>, op': Operation,
                      publish: bool)
    requires RowsInv(i, a, op, root) && a.state != Reserved && at.Some?
    requires a.sent || a.finished
    requires op' == op.(state := op'.state, reason := op'.reason)
    requires if Terminal(op.state) then op' == op else op'.state == (if publish then OpFailed else Reconciling)
    requires publish ==> Terminal(op'.state)
    ensures RowsMove(i, a, op, root, a.(state := Unknown, unknownAt := at), op', root, publish)
  {
    SameRootMoves(root, a, a.(state := Unknown, unknownAt := at));
    OpRowsMove(op, op', i, a, a.(state := Unknown, unknownAt := at));
  }

  lemma LostRows(i: AttemptId, a: Attempt, op: Operation, root: Root, why: Why, now: Time)
    requires RowsInv(i, a, op, root) && a.state != Reserved && (a.sent || a.finished)
    ensures RowsMove(i, a, op, root, LostAttempt(a, now), UncertainOp(op, why, now), root, Expired(op.spec, now))
  {
    UncertainRows(i, a, op, root, LostAttempt(a, now).unknownAt, UncertainOp(op, why, now), Expired(op.spec, now));
  }

  /** Losing a live attempt that was sent. */
  lemma LoseSound(db: Ledger, i: AttemptId, why: Why, now: Time)
    requires Inv(db) && Linked(db, i) && !Final(db.attempts[i].state) && db.attempts[i].state != Reserved
    ensures var a := db.attempts[i];
      var op := db.ops[a.op];
      Sound(db, Written(db, i, LostAttempt(a, now), UncertainOp(op, why, now), db.roots[a.root], db.pools,
                        Expired(op.spec, now)))
  {
    var a := db.attempts[i];
    var op, root := db.ops[a.op], db.roots[a.root];
    RowsAt(db, i);
    assert AttemptInv(db, i);
    LostRows(i, a, op, root, why, now);
    PutSound(db, i, LostAttempt(a, now), UncertainOp(op, why, now), root, db.pools, Expired(op.spec, now));
  }

  /** `unknown` is sound for an attempt that was sent; the caller knows, it sent it. */
  lemma MarkUnknownSound(db: Ledger, res: Reservation, why: Why, now: Time)
    requires Inv(db) && MarkUnknown(db, res, why, now).Commit? && db.attempts[res.attempt].state != Reserved
    ensures Sound(db, MarkUnknown(db, res, why, now).db)
  {
    if Final(db.attempts[res.attempt].state) {
      EvolvesRefl(db);
    } else {
      LoseSound(db, res.attempt, why, now);
    }
  }

  lemma FailedOpMoves(i: AttemptId, a: Attempt, op: Operation, root: Root, why: Why, notSent: bool, retry: bool,
                      delay: nat, now: Time)
    requires RowsInv(i, a, op, root)
    ensures var op' := FailedOp(op, root, why, retry, delay, now);
      OpMoves(op, op', i, a, FailedAttempt(a, notSent)) && OpEvolves(op, op')
  {
    OpRowsMove(op, FailedOp(op, root, why, retry, delay, now), i, a, FailedAttempt(a, notSent));
  }

  lemma FailRows(i: AttemptId, a: Attempt, op: Operation, root: Root, why: Why, notSent: bool, retry: bool, delay: nat,
                 now: Time)
    requires RowsInv(i, a, op, root)
    ensures var op' := FailedOp(op, root, why, retry, delay, now);
      RowsMove(i, a, op, root, FailedAttempt(a, notSent), op', SettledRoot(root, a, if notSent then Some(0) else None),
               Terminal(op'.state) && !Terminal(op.state))
  {
    FailedOpMoves(i, a, op, root, why, notSent, retry, delay, now);
    SettledRootMoves(root, a, FailedAttempt(a, notSent), if notSent then Some(0) else None);
  }

  lemma FailSound(db: Ledger, res: Reservation, why: Why, notSent: bool, retry: bool, delay: nat, now: Time)
    requires Inv(db) && Fail(db, res, why, notSent, retry, delay, now).Commit?
    ensures Sound(db, Fail(db, res, why, notSent, retry, delay, now).db)
  {
    var a := db.attempts[res.attempt];
    if Final(a.state) {
      EvolvesRefl(db);
    } else {
      var usage := if notSent then Some(0) else None;
      var op, root := db.ops[a.op], db.roots[a.root];
      var op' := FailedOp(op, root, why, retry, delay, now);
      RowsAt(db, res.attempt);
      FailRows(res.attempt, a, op, root, why, notSent, retry, delay, now);
      PutSound(db, res.attempt, FailedAttempt(a, notSent), op', SettledRoot(root, a, usage),
               SettledPools(db.pools, a, usage), Terminal(op'.state) && !Terminal(op.state));
    }
  }

  // ---------------------------------------------------------------- settlement without the owner

  lemma StoppedOpMoves(i: AttemptId, a: Attempt, op: Operation, root: Root, root': Root, recover: bool, error: Why,
                       retryWhy: Why, now: Time)
    requires RowsInv(i, a, op, root)
    ensures var op' := StoppedOp(op, root', i, a, recover, error, retryWhy, now);
      OpMoves(op, op', i, a, StoppedAttempt(a)) && OpEvolves(op, op')
  {
    OpRowsMove(op, StoppedOp(op, root', i, a, recover, error, retryWhy, now), i, a, StoppedAttempt(a));
  }

  lemma StoppedRows(i: AttemptId, a: Attempt, op: Operation, root: Root, recover: bool, error: Why, retryWhy: Why,
                    now: Time)
    requires RowsInv(i, a, op, root)
    ensures var root' := SettledRoot(root, a, StoppedUsage(a));
      var op' := StoppedOp(op, root', i, a, recover, error, retryWhy, now);
      RowsMove(i, a, op, root, StoppedAttempt(a), op', root', Terminal(op'.state) && !Terminal(op.state))
  {
    StoppedOpMoves(i, a, op, root, SettledRoot(root, a, StoppedUsage(a)), recover, error, retryWhy, now);
    SettledRootMoves(root, a, StoppedAttempt(a), StoppedUsage(a));
  }

  lemma StopSound(db: Ledger, i: AttemptId, op': Operation)
    requires Inv(db) && Linked(db, i) && !Final(db.attempts[i].state)
    requires var a := db.attempts[i];
      var op := db.ops[a.op];
      RowsMove(i, a, op, db.roots[a.root], StoppedAttempt(a), op', SettledRoot(db.roots[a.root], a, StoppedUsage(a)),
               Terminal(op'.state) && !Terminal(op.state))
    ensures Sound(db, Stop(db, i, op'))
  {
    var a := db.attempts[i];
    PutSound(db, i, StoppedAttempt(a), op', SettledRoot(db.roots[a.root], a, StoppedUsage(a)),
             SettledPools(db.pools, a, StoppedUsage(a)), Terminal(op'.state) && !Terminal(db.ops[a.op].state));
  }

  lemma SettleStoppedSound(db: Ledger, i: AttemptId, recover: bool, error: Why, retryWhy: Why, now: Time)
    requires Inv(db) && Linked(db, i) && !Final(db.attempts[i].state)
    ensures Sound(db, SettleStopped(db, i, recover, error, retryWhy, now))
  {
    var a := db.attempts[i];
    var op, root' := db.ops[a.op], SettledRoot(db.roots[a.root], a, StoppedUsage(a));
    var op' := StoppedOp(op, root', i, a, recover, error, retryWhy, now);
    RowsAt(db, i);
    StoppedRows(i, a, op, db.roots[a.root], recover, error, retryWhy, now);
    StopSound(db, i, op');
  }

  lemma UnsentRows(i: AttemptId, a: Attempt, op: Operation, root: Root)
    requires RowsInv(i, a, op, root)
    ensures RowsMove(i, a, op, root, FailedAttempt(a, true), AbandonedOp(op, true), SettledRoot(root, a, Some(0)),
                     false)
  {
    SettledRootMoves(root, a, FailedAttempt(a, true), Some(0));
    OpRowsMove(op, AbandonedOp(op, true), i, a, FailedAttempt(a, true));
  }

  lemma ReconcileAttemptSound(db: Ledger, seen: Ledger, i: AttemptId, now: Time)
    requires Inv(db) && AttemptInv(seen, i) && i < |db.attempts| && db.attempts[i] == seen.attempts[i]
    ensures Sound(db, ReconcileAttempt(db, seen, i, now))
  {
    EvolvesRefl(db);
    if Abandoned(seen, i, now) && Linked(db, i) {
      var a := db.attempts[i];
      var op, root := db.ops[a.op], db.roots[a.root];
      RowsAt(db, i);
      if a.state == Reserved {
        UnsentRows(i, a, op, root);
        PutSound(db, i, FailedAttempt(a, true), AbandonedOp(op, true), SettledRoot(root, a, Some(0)),
                 SettledPools(db.pools, a, Some(0)), false);
      } else {
        UncertainRows(i, a, op, root, Some(now), AbandonedOp(op, false), false);
        PutSound(db, i, a.(state := Unknown, unknownAt := Some(now)), AbandonedOp(op, false), root, db.pools, false);
      }
    }
  }

  lemma ReconcileAttemptElsewhere(db: Ledger, seen: Ledger, i: AttemptId, now: Time)
    ensures forall j :: 0 <= j < |db.attempts| && j != i
                        ==> ReconcileAttempt(db, seen, i, now).attempts[j] == db.attempts[j]
  {
  }

  /** One more turn of the loop, after turns that were sound and left row `k` alone. */
  lemma ReconcileNextSound(db: Ledger, before: Ledger, k: nat, now: Time)
    requires Inv(db) && Sound(db, before) && k < |db.attempts| == |before.attempts|
    requires before.attempts[k] == db.attempts[k]
    ensures Sound(db, ReconcileAttempt(before, db, k, now))
  {
    assert AttemptInv(db, k);
    ReconcileAttemptSound(before, db, k, now);
    EvolvesTrans(db, before, ReconcileAttempt(before, db, k, now));
  }

  lemma {:induction false} ReconcileAttemptsSound(db: Ledger, k: nat, now: Time)
    requires Inv(db) && k <= |db.attempts|
    ensures Sound(db, ReconcileAttempts(db, db, k, now))
    ensures forall j :: k <= j < |db.attempts| ==> ReconcileAttempts(db, db, k, now).attempts[j] == db.attempts[j]
  {
    if k > 0 {
      var before := ReconcileAttempts(db, db, k - 1, now);
      ReconcileAttemptsSound(db, k - 1, now);
      ReconcileNextSound(db, before, k - 1, now);
      ReconcileAttemptElsewhere(before, db, k - 1, now);
    } else {
      EvolvesRefl(db);
    }
  }

  lemma SettleProvenAtSound(db: Ledger, seen: Attempt, i: AttemptId, p: PoolId, epoch: Epoch, e: Evidence, now: Time)
    requires Inv(db) && AttemptOk(seen) && i < |db.attempts| && db.attempts[i] == seen
    ensures Sound(db, SettleProvenAt(db, seen, i, p, epoch, e, now))
  {
    EvolvesRefl(db);
    if Proven(seen, i, p, epoch, e) && Linked(db, i) {
      match e {
        case EpochStopped(recover) => SettleStoppedSound(db, i, recover, EngineStopped, EngineRecovery, now);
        case IdleSince(_, _) => SettleStoppedSound(db, i, true, EngineIdle, EngineRecovery, now);
      }
    }
  }

  lemma SettleProvenAtElsewhere(db: Ledger, seen: Attempt, i: AttemptId, p: PoolId, epoch: Epoch, e: Evidence,
                                now: Time)
    ensures forall j :: 0 <= j < |db.attempts| && j != i ==>
      SettleProvenAt(db, seen, i, p, epoch, e, now).attempts[j] == db.attempts[j]
  {
  }

  lemma {:induction false} SettleProvenSound(db: Ledger, p: PoolId, epoch: Epoch, e: Evidence, k: nat, now: Time)
    requires Inv(db) && k <= |db.attempts|
    ensures Sound(db, SettleProven(db, db.attempts, p, epoch, e, k, now))
    ensures forall j :: k <= j < |db.attempts| ==>
      SettleProven(db, db.attempts, p, epoch, e, k, now).attempts[j] == db.attempts[j]
  {
    EvolvesRefl(db);
    if k > 0 {
      var before := SettleProven(db, db.attempts, p, epoch, e, k - 1, now);
      SettleProvenSound(db, p, epoch, e, k - 1, now);
      assert AttemptInv(db, k - 1);
      SettleProvenAtSound(before, db.attempts[k - 1], k - 1, p, epoch, e, now);
      SettleProvenAtElsewhere(before, db.attempts[k - 1], k - 1, p, epoch, e, now);
      EvolvesTrans(db, before, SettleProvenAt(before, db.attempts[k - 1], k - 1, p, epoch, e, now));
    }
  }

  // ---------------------------------------------------------------- ending operations and runs

  /** A root row that keeps its books. */
  predicate RootStays(x: Root, y: Root) {
    y.attempts == x.attempts && y.budgets == x.budgets && RootOk(y) && RootEvolves(x, y)
  }

  predicate RootStaysAt(db: Ledger, roots: map<RootId, Root>, r: RootId) {
    r in db.roots && r in roots && RootStays(db.roots[r], roots[r])
  }

  /** An operation of a run that closes has ended or is among those ended. */
  predicate ClosesOp(db: Ledger, roots: map<RootId, Root>, os: set<OpId>, o: OpId) {
    && Joined(db, o) && RootStaysAt(db, roots, db.ops[o].spec.root)
    && var r := db.ops[o].spec.root;
       Closed(roots[r].state) && !Closed(db.roots[r].state) ==> o in os || Terminal(db.ops[o].state)
  }

  ghost predicate Closes(db: Ledger, roots: map<RootId, Root>, os: set<OpId>) {
    && os <= db.ops.Keys
    && roots.Keys == db.roots.Keys
    && (forall r {:trigger RootStaysAt(db, roots, r)} :: r in db.roots ==> RootStaysAt(db, roots, r))
    && (forall o {:trigger ClosesOp(db, roots, os, o)} :: o in db.ops ==> ClosesOp(db, roots, os, o))
  }

  function EndOps(db: Ledger, roots: map<RootId, Root>, os: set<OpId>, s: OpState, why: Why): Ledger {
    TerminateAll(db.(roots := roots), os, s, why)
  }

  predicate EndsOp(db: Ledger, next: Ledger, os: set<OpId>, s: OpState, why: Why, o: OpId) {
    && o in db.ops && o in next.ops
    && next.ops[o] == if o in os then Ended(db.ops[o], s, why) else db.ops[o]
  }

  ghost predicate EndsOps(db: Ledger, next: Ledger, roots: map<RootId, Root>, os: set<OpId>, s: OpState, why: Why) {
    && next.attempts == db.attempts && next.bindings == db.bindings && next.roots == roots
    && next.completions == db.completions + BindingsOf(db.bindings, os)
    && next.ops.Keys == db.ops.Keys
    && (forall o {:trigger EndsOp(db, next, os, s, why, o)} :: o in db.ops ==> EndsOp(db, next, os, s, why, o))
  }

  lemma EndOpsShape(db: Ledger, roots: map<RootId, Root>, os: set<OpId>, s: OpState, why: Why)
    ensures EndsOps(db, EndOps(db, roots, os, s, why), roots, os, s, why)
  {
  }

  lemma EndOpsRow(db: Ledger, next: Ledger, os: set<OpId>, s: OpState, why: Why, o: OpId)
    requires next.attempts == db.attempts && EndsOp(db, next, os, s, why, o) && ClosesOp(db, next.roots, os, o)
    requires OpInv(db, o) && Terminal(s) && s != OpSucceeded
    ensures OpInv(next, o) && OpKept(db, next, o)
  {
    EndedOk(db.attempts, o, db.ops[o], s, why);
  }

  lemma EndedOk(rows: seq<Attempt>, o: OpId, op: Operation, s: OpState, why: Why)
    requires OpOk(rows, o, op) && Terminal(s) && s != OpSucceeded
    ensures OpOk(rows, o, Ended(op, s, why)) && OpEvolves(op, Ended(op, s, why)) && Terminal(Ended(op, s, why).state)
  {
  }

  lemma EndOpsAttempt(db: Ledger, next: Ledger, os: set<OpId>, s: OpState, why: Why, i: AttemptId)
    requires next.attempts == db.attempts && AttemptInv(db, i)
    requires EndsOp(db, next, os, s, why, db.attempts[i].op) && RootStaysAt(db, next.roots, db.attempts[i].root)
    requires Terminal(s)
    ensures AttemptInv(next, i)
  {
    var a := db.attempts[i];
    assert next.ops[a.op].spec == db.ops[a.op].spec && next.ops[a.op].active == db.ops[a.op].active;
    assert Queued(next.ops[a.op].state) ==> Queued(db.ops[a.op].state);
    assert Linked(next, i);
  }

  lemma EndOpsBinding(db: Ledger, next: Ledger, os: set<OpId>, s: OpState, why: Why, b: BindingId)
    requires BindingInv(db, b) && EndsOp(db, next, os, s, why, db.bindings[b]) && Terminal(s)
    requires next.bindings == db.bindings && next.completions == db.completions + BindingsOf(db.bindings, os)
    ensures BindingInv(next, b)
  {
  }

  lemma EndOpsAttempts(db: Ledger, next: Ledger, os: set<OpId>, s: OpState, why: Why)
    requires Inv(db) && EndsOps(db, next, next.roots, os, s, why) && Closes(db, next.roots, os) && Terminal(s)
    ensures forall i {:trigger AttemptInv(next, i)} :: 0 <= i < |next.attempts| ==> AttemptInv(next, i)
    ensures forall b {:trigger BindingInv(next, b)} :: b in next.bindings ==> BindingInv(next, b)
  {
    forall i | 0 <= i < |next.attempts| ensures AttemptInv(next, i) {
      assert AttemptInv(db, i) && RootStaysAt(db, next.roots, db.attempts[i].root);
      assert EndsOp(db, next, os, s, why, db.attempts[i].op);
      EndOpsAttempt(db, next, os, s, why, i);
    }
    forall b | b in next.bindings ensures BindingInv(next, b) {
      assert BindingInv(db, b) && EndsOp(db, next, os, s, why, db.bindings[b]);
      EndOpsBinding(db, next, os, s, why, b);
    }
  }

  lemma EndOpsRows(db: Ledger, next: Ledger, os: set<OpId>, s: OpState, why: Why)
    requires Inv(db) && EndsOps(db, next, next.roots, os, s, why) && Closes(db, next.roots, os)
    requires Terminal(s) && s != OpSucceeded
    ensures forall o {:trigger OpInv(next, o)} {:trigger OpKept(db, next, o)} :: o in next.ops
              ==> OpInv(next, o) && OpKept(db, next, o)
    ensures forall r {:trigger RootInv(next, r)} {:trigger RootKept(db, next, r)} :: r in next.roots
              ==> RootInv(next, r) && RootKept(db, next, r)
  {
    forall o | o in next.ops ensures OpInv(next, o) && OpKept(db, next, o) {
      assert OpInv(db, o) && ClosesOp(db, next.roots, os, o) && EndsOp(db, next, os, s, why, o);
      EndOpsRow(db, next, os, s, why, o);
    }
    forall r | r in next.roots ensures RootInv(next, r) && RootKept(db, next, r) {
      assert RootInv(db, r) && RootStaysAt(db, next.roots, r);
    }
  }

  lemma EndOpsInv(db: Ledger, next: Ledger, os: set<OpId>, s: OpState, why: Why)
    requires Inv(db) && EndsOps(db, next, next.roots, os, s, why) && Closes(db, next.roots, os)
    requires Terminal(s) && s != OpSucceeded
    ensures Sound(db, next)
  {
    EndOpsAttempts(db, next, os, s, why);
    EndOpsRows(db, next, os, s, why);
  }

  lemma EndOpsSound(db: Ledger, roots: map<RootId, Root>, os: set<OpId>, s: OpState, why: Why)
    requires Inv(db) && Closes(db, roots, os) && Terminal(s) && s != OpSucceeded
    ensures Sound(db, EndOps(db, roots, os, s, why))
  {
    EndOpsShape(db, roots, os, s, why);
    EndOpsInv(db, EndOps(db, roots, os, s, why), os, s, why);
  }

  /** Roots whose closing leaves no open operation behind. */
  lemma ClosesAll(db: Ledger, roots: map<RootId, Root>, os: set<OpId>)
    requires Inv(db) && os <= db.ops.Keys && roots.Keys == db.roots.Keys
    requires forall r {:trigger RootStaysAt(db, roots, r)} :: r in db.roots ==> RootStaysAt(db, roots, r)
    requires forall o :: o in db.ops && o !in os && db.ops[o].spec.root in roots
                         && Closed(roots[db.ops[o].spec.root].state)
                         ==> Closed(db.roots[db.ops[o].spec.root].state) || Terminal(db.ops[o].state)
    ensures Closes(db, roots, os)
  {
    forall o | o in db.ops ensures ClosesOp(db, roots, os, o) {
      assert OpInv(db, o) && RootStaysAt(db, roots, db.ops[o].spec.root);
    }
  }

  lemma TerminateAllSound(db: Ledger, os: set<OpId>, s: OpState, why: Why)
    requires Inv(db) && os <= db.ops.Keys && Terminal(s) && s != OpSucceeded
    ensures Sound(db, TerminateAll(db, os, s, why))
  {
    forall r | r in db.roots ensures RootStaysAt(db, db.roots, r) {
      assert RootInv(db, r);
    }
    ClosesAll(db, db.roots, os);
    EndOpsSound(db, db.roots, os, s, why);
  }

  lemma TerminateSound(db: Ledger, o: OpId, s: OpState, why: Why)
    requires Inv(db) && o in db.ops && Terminal(s) && s != OpSucceeded
    ensures Sound(db, Terminate(db, o, s, why))
  {
    TerminateAllSound(db, {o}, s, why);
    assert TerminateAll(db, {o}, s, why).ops == db.ops[o := Ended(db.ops[o], s, why)];
  }

  lemma FailLateRootsSound(db: Ledger, now: Time)
    requires Inv(db)
    ensures Sound(db, FailLateRoots(db, now))
  {
    var next := FailLateRoots(db, now);
    forall r | r in db.roots ensures RootStaysAt(db, next.roots, r) {
      assert RootInv(db, r);
    }
    ClosesAll(db, next.roots, {});
    assert BindingsOf(db.bindings, {}) == {};
    EndOpsInv(db, next, {}, OpFailed, NoReason);
  }

  lemma ReconcileSound(db: Ledger, page: set<OpId>, now: Time)
    requires Inv(db)
    ensures Sound(db, Reconcile(db, page, now))
  {
    var db1 := TerminateAll(db, ExpiredOps(db, now), OpFailed, OperationDeadline);
    TerminateAllSound(db, ExpiredOps(db, now), OpFailed, OperationDeadline);
    var db2 := ReconcileAttempts(db1, db1, |db1.attempts|, now);
    ReconcileAttemptsSound(db1, |db1.attempts|, now);
    EvolvesTrans(db, db1, db2);
    var db3 := TerminateAll(db2, LateOps(db2, now), OpFailed, DeadlineExceeded);
    TerminateAllSound(db2, LateOps(db2, now), OpFailed, DeadlineExceeded);
    EvolvesTrans(db, db2, db3);
    var db4 := TerminateAll(db3, ImpossibleOps(db3, page), OpFailed, ImpossibleRequest);
    TerminateAllSound(db3, ImpossibleOps(db3, page), OpFailed, ImpossibleRequest);
    EvolvesTrans(db, db3, db4);
    var db5 := FailLateRoots(db4, now);
    FailLateRootsSound(db4, now);
    EvolvesTrans(db, db4, db5);
    TerminateAllSound(db5, OrphanedOps(db5), OpCancelled, RootTerminal);
    EvolvesTrans(db, db5, TerminateAll(db5, OrphanedOps(db5), OpCancelled, RootTerminal));
  }

  lemma CloseRootSound(db: Ledger, id: RootId, root: Root, why: Why)
    requires Inv(db) && id in db.roots && RootStays(db.roots[id], root)
    ensures Sound(db, CloseRoot(db, id, root, why))
  {
    forall r | r in db.roots ensures RootStaysAt(db, db.roots[id := root], r) {
      assert RootInv(db, r);
    }
    ClosesAll(db, db.roots[id := root], OpenOps(db, id));
    EndOpsSound(db, db.roots[id := root], OpenOps(db, id), OpCancelled, why);
  }

  lemma CancelSound(db: Ledger, id: RootId, tenant: TenantId)
    requires Inv(db) && Cancel(db, id, tenant).Commit?
    ensures Sound(db, Cancel(db, id, tenant).db)
  {
    var root := db.roots[id];
    assert RootInv(db, id);
    EvolvesRefl(db);
    if root.state !in {Succeeded, Partial, Failed} {
      var root' := root.(cancelRequested := true, state := Cancelled, reason := UserCancelled);
      CloseRootSound(db, id, root', UserCancelled);
      CancelsSound(db, CloseRoot(db, id, root', UserCancelled), db.cancels + {id});
    }
  }

  /** The cancel events, the pools, the groups and the owners are in no clause of the invariant. */
  lemma CancelsSound(db: Ledger, next: Ledger, cancels: set<RootId>)
    requires Sound(db, next)
    ensures Sound(db, next.(cancels := cancels))
  {
    ElsewhereSound(db, next, next.(cancels := cancels));
  }

  ghost predicate SameRows(x: Ledger, y: Ledger) {
    && y.attempts == x.attempts && y.ops == x.ops && y.roots == x.roots
    && y.bindings == x.bindings && y.completions == x.completions
  }

  lemma ElsewhereSound(db: Ledger, x: Ledger, y: Ledger)
    requires Sound(db, x) && SameRows(x, y)
    ensures Sound(db, y)
  {
    BindRows(x, y);
    forall b | b in y.bindings ensures BindingInv(y, b) {
      assert BindingInv(x, b);
      BindingStays(x, y, b);
    }
    SameRowsEvolve(x, y);
    EvolvesTrans(db, x, y);
  }

  lemma SameRowsEvolve(x: Ledger, y: Ledger)
    requires SameRows(x, y)
    ensures Evolves(x, y)
  {
  }

  lemma FinishRunSound(db: Ledger, id: RootId, tenant: TenantId, state: RunState, result: Option<Blob>, why: Why,
                       now: Time, at: Time)
    requires Inv(db) && FinishRun(db, id, tenant, state, result, why, now, at).Commit?
    ensures Sound(db, FinishRun(db, id, tenant, state, result, why, now, at).db)
  {
    EvolvesRefl(db);
    if state == Cancelled {
      CancelSound(db, id, tenant);
    } else if db.roots[id].state == Running {
      var root := db.roots[id];
      assert RootInv(db, id);
      var late := root.spec.deadline <= now || root.spec.deadline <= at;
      var root' := root.(state := if late then Failed else state,
                         result := if late then None else result,
                         reason := if late then DeadlineExceeded else why);
      var text := if root'.reason == NoReason then RootFinished else root'.reason;
      CloseRootSound(db, id, root', text);
      if root'.state == Succeeded {
        assert BindingsOf(db.bindings, {}) == {};
        EndsNothing(db, id, root', text);
      }
    }
  }

  lemma EndsNothing(db: Ledger, id: RootId, root: Root, why: Why)
    requires OpenOps(db, id) == {}
    ensures CloseRoot(db, id, root, why) == db.(roots := db.roots[id := root])
  {
    assert BindingsOf(db.bindings, {}) == {};
    assert CloseRoot(db, id, root, why).ops == db.ops;
  }

  // ---------------------------------------------------------------- new rows

  lemma AttemptStays(db: Ledger, next: Ledger, i: AttemptId)
    requires AttemptInv(db, i) && i < |next.attempts| && next.attempts[i] == db.attempts[i]
    requires var o := db.attempts[i].op; o in next.ops && next.ops[o] == db.ops[o]
    requires var r := db.attempts[i].root; r in next.roots && next.roots[r].budgets == db.roots[r].budgets
    ensures AttemptInv(next, i)
  {
  }

  lemma OpStays(db: Ledger, next: Ledger, o: OpId)
    requires OpInv(db, o) && next.attempts == db.attempts && o in next.ops && next.ops[o] == db.ops[o]
    requires var r := db.ops[o].spec.root;
      r in next.roots && next.roots[r].budgets == db.roots[r].budgets && next.roots[r].state == db.roots[r].state
    ensures OpInv(next, o)
  {
  }

  lemma BindingStays(db: Ledger, next: Ledger, b: BindingId)
    requires BindingInv(db, b) && b in next.bindings && next.bindings[b] == db.bindings[b]
    requires next.bindings[b] in next.ops
      && Terminal(next.ops[next.bindings[b]].state) == Terminal(db.ops[db.bindings[b]].state)
    requires b in next.completions <==> b in db.completions || Terminal(db.ops[db.bindings[b]].state)
    ensures BindingInv(next, b)
  {
  }

  /** Only rows added, and roots that keep what is final about them. */
  lemma GrowthEvolves(db: Ledger, next: Ledger)
    requires next.attempts == db.attempts && db.completions <= next.completions
    requires forall o :: o in db.ops ==> o in next.ops && next.ops[o] == db.ops[o]
    requires forall r {:trigger RootKept(db, next, r)} :: r in db.roots ==> RootKept(db, next, r)
    requires forall b :: b in db.bindings ==> b in next.bindings && next.bindings[b] == db.bindings[b]
    ensures Evolves(db, next)
  {
  }

  lemma NoSends(db: Ledger, r: RootId)
    requires Inv(db) && r !in db.roots
    ensures Total(db.attempts, RootSends(r)) == 0
  {
    forall i | 0 <= i < |db.attempts| ensures Weight(db.attempts[i], RootSends(r)) == 0 {
      assert AttemptInv(db, i);
    }
    TotalZero(db.attempts, RootSends(r));
  }

  lemma NoBudget(db: Ledger, r: RootId, u: Unit)
    requires Inv(db) && r !in db.roots
    ensures Total(db.attempts, Held(r, u)) == 0 && Total(db.attempts, Used(r, u)) == 0
      && Total(db.attempts, Over(r, u)) == 0
  {
    forall i | 0 <= i < |db.attempts| ensures db.attempts[i].root != r {
      assert AttemptInv(db, i);
    }
    TotalZero(db.attempts, Held(r, u));
    TotalZero(db.attempts, Used(r, u));
    TotalZero(db.attempts, Over(r, u));
  }

  lemma NewRootInv(db: Ledger, next: Ledger, id: RootId, spec: RootSpec)
    requires Inv(db) && id !in db.roots && id in next.roots && next.roots[id] == NewRoot(spec)
    requires next.attempts == db.attempts
    ensures RootInv(next, id)
  {
    var root := NewRoot(spec);
    NoSends(db, id);
    forall u | u in root.budgets
      ensures BudgetOk(root.budgets[u], Total(db.attempts, Held(id, u)), Total(db.attempts, Used(id, u)),
                       Total(db.attempts, Over(id, u)))
    {
      NoBudget(db, id, u);
    }
  }

  lemma CreateRootSound(db: Ledger, id: RootId, spec: RootSpec, now: Time)
    requires Inv(db) && CreateRoot(db, id, spec, now).Commit?
    ensures Sound(db, CreateRoot(db, id, spec, now).db)
  {
    EvolvesRefl(db);
    if id !in db.roots {
      AddRootSound(db, id, spec);
    }
  }

  lemma AddRootSound(db: Ledger, id: RootId, spec: RootSpec)
    requires Inv(db) && id !in db.roots
    ensures Sound(db, db.(roots := db.roots[id := NewRoot(spec)]))
  {
    var next := db.(roots := db.roots[id := NewRoot(spec)]);
    assert Evolves(db, next) by {
      GrowthEvolves(db, next);
    }
    NewRootInv(db, next, id, spec);
    AddRootRows(db, next, id);
    forall r | r in next.roots && r != id ensures RootInv(next, r) {
      assert RootInv(db, r);
    }
  }

  lemma AddRootRows(db: Ledger, next: Ledger, id: RootId)
    requires Inv(db) && id !in db.roots && id in next.roots && next == db.(roots := db.roots[id := next.roots[id]])
    ensures forall i {:trigger AttemptInv(next, i)} :: 0 <= i < |next.attempts| ==> AttemptInv(next, i)
    ensures forall o {:trigger OpInv(next, o)} :: o in next.ops ==> OpInv(next, o)
    ensures forall b {:trigger BindingInv(next, b)} :: b in next.bindings ==> BindingInv(next, b)
  {
    forall i | 0 <= i < |next.attempts| ensures AttemptInv(next, i) {
      assert AttemptInv(db, i);
      AttemptStays(db, next, i);
    }
    forall o | o in next.ops ensures OpInv(next, o) {
      assert OpInv(db, o);
      OpStays(db, next, o);
    }
    forall b | b in next.bindings ensures BindingInv(next, b) {
      assert BindingInv(db, b);
      BindingStays(db, next, b);
    }
  }

  lemma NoOpSends(db: Ledger, o: OpId)
    requires Inv(db) && o !in db.ops
    ensures Total(db.attempts, OpSends(o)) == 0
  {
    forall i | 0 <= i < |db.attempts| ensures Weight(db.attempts[i], OpSends(o)) == 0 {
      assert AttemptInv(db, i);
    }
    TotalZero(db.attempts, OpSends(o));
  }

  lemma SubmitOperationSound(db: Ledger, id: OpId, spec: OpSpec, now: Time)
    requires Inv(db) && SubmitOperation(db, id, spec, now).Commit?
    ensures Sound(db, SubmitOperation(db, id, spec, now).db)
  {
    EvolvesRefl(db);
    if id !in db.ops {
      assert RootInv(db, spec.root);
      AddOperationSound(db, id, spec, now);
    }
  }

  /** No binding names an operation that does not exist. */
  lemma NoBindings(db: Ledger, id: OpId)
    requires Inv(db) && id !in db.ops
    ensures BindingsOf(db.bindings, {id}) == {}
  {
    forall b | b in db.bindings ensures db.bindings[b] != id {
      assert BindingInv(db, b);
    }
  }

  lemma AddOperationSound(db: Ledger, id: OpId, spec: OpSpec, now: Time)
    requires Inv(db) && id !in db.ops && spec.root in db.roots
    requires db.roots[spec.root].state == Running && spec.unit in db.roots[spec.root].budgets
    ensures Sound(db, AddOperation(db, id, spec, now))
  {
    NoBindings(db, id);
    NoOpSends(db, id);
    AddOperationShape(db, id, spec, now);
    AddedSound(db, AddOperation(db, id, spec, now), id, spec.root);
  }

  /** `next` adds one blank operation, queued or expired. */
  ghost predicate Adds(db: Ledger, next: Ledger, id: OpId, r: RootId) {
    && id in next.ops && next.ops == db.ops[id := next.ops[id]]
    && next.attempts == db.attempts && next.bindings == db.bindings && next.completions == db.completions
    && r in db.roots && r in next.roots && next.roots == db.roots[r := next.roots[r]]
    && next.roots[r] == db.roots[r].(operations := next.roots[r].operations)
    && var op := next.ops[id];
       && op.spec.root == r && op.active.None? && op.result.None? && op.attempts == 0
       && (op.state == Ready || op.state == OpFailed)
       && op.spec.unit in db.roots[r].budgets
  }

  lemma AddOperationShape(db: Ledger, id: OpId, spec: OpSpec, now: Time)
    requires id !in db.ops && spec.root in db.roots && spec.unit in db.roots[spec.root].budgets
    requires BindingsOf(db.bindings, {id}) == {}
    ensures Adds(db, AddOperation(db, id, spec, now), id, spec.root)
  {
    if Expired(spec, now) {
      assert db.completions + {} == db.completions;
    }
  }

  lemma AddedSound(db: Ledger, next: Ledger, id: OpId, r: RootId)
    requires Inv(db) && id !in db.ops && Adds(db, next, id, r) && db.roots[r].state == Running
    requires Total(db.attempts, OpSends(id)) == 0
    ensures Sound(db, next)
  {
    AddOperationRoots(db, next);
    assert Evolves(db, next) by {
      GrowthEvolves(db, next);
    }
    AddOperationRows(db, next, id);
  }

  lemma AddOperationRoots(db: Ledger, next: Ledger)
    requires Inv(db) && next.attempts == db.attempts && next.roots.Keys == db.roots.Keys
    requires forall r :: r in db.roots ==> next.roots[r] == db.roots[r].(operations := next.roots[r].operations)
    ensures forall r {:trigger RootKept(db, next, r)} :: r in db.roots ==> RootKept(db, next, r)
    ensures forall r {:trigger RootInv(next, r)} :: r in next.roots ==> RootInv(next, r)
  {
    forall r | r in next.roots ensures RootInv(next, r) && RootKept(db, next, r) {
      assert RootInv(db, r);
    }
  }

  lemma AddOperationRows(db: Ledger, next: Ledger, id: OpId)
    requires Inv(db) && id !in db.ops && id in next.ops && next.ops == db.ops[id := next.ops[id]]
    requires next.attempts == db.attempts && next.bindings == db.bindings && next.completions == db.completions
    requires next.roots.Keys == db.roots.Keys && OpInv(next, id)
    requires forall r :: r in db.roots
                         ==> next.roots[r].budgets == db.roots[r].budgets && next.roots[r].state == db.roots[r].state
    requires forall r {:trigger RootInv(next, r)} :: r in next.roots ==> RootInv(next, r)
    ensures Inv(next)
  {
    forall i | 0 <= i < |next.attempts| ensures AttemptInv(next, i) {
      assert AttemptInv(db, i);
      AttemptStays(db, next, i);
    }
    forall o | o in next.ops && o != id ensures OpInv(next, o) {
      assert OpInv(db, o);
      OpStays(db, next, o);
    }
    forall b | b in next.bindings ensures BindingInv(next, b) {
      assert BindingInv(db, b);
      BindingStays(db, next, b);
    }
  }

  lemma BindCompletionSound(db: Ledger, o: OpId, tenant: TenantId, b: BindingId)
    requires Inv(db) && BindCompletion(db, o, tenant, b).Commit?
    ensures Sound(db, BindCompletion(db, o, tenant, b).db)
  {
    var next := BindCompletion(db, o, tenant, b).db;
    forall k | k in next.bindings ensures BindingInv(next, k) {
      if k in db.bindings {
        assert BindingInv(db, k);
      }
      BindRow(db, o, tenant, b, k);
    }
    BoundSound(db, next);
  }

  /** More bindings, and the completions that are due for them. */
  lemma BoundSound(db: Ledger, next: Ledger)
    requires Inv(db)
    requires next == db.(bindings := next.bindings, completions := next.completions)
    requires forall k :: k in db.bindings ==> k in next.bindings && next.bindings[k] == db.bindings[k]
    requires forall k {:trigger BindingInv(next, k)} :: k in next.bindings ==> BindingInv(next, k)
    requires db.completions <= next.completions <= next.bindings.Keys
    ensures Sound(db, next)
  {
    BindRows(db, next);
    assert Evolves(db, next) by {
      GrowthEvolves(db, next);
    }
  }

  lemma BindRow(db: Ledger, o: OpId, tenant: TenantId, b: BindingId, k: BindingId)
    requires BindCompletion(db, o, tenant, b).Commit? && k in BindCompletion(db, o, tenant, b).db.bindings
    requires if k in db.bindings then BindingInv(db, k) else k !in db.completions
    ensures BindingInv(BindCompletion(db, o, tenant, b).db, k)
  {
    var bound := if b in db.bindings then db else db.(bindings := db.bindings[b := o]);
    assert Terminal(db.ops[o].state) ==> (k in BindingsOf(bound.bindings, {o}) <==> bound.bindings[k] == o);
  }

  lemma BindRows(db: Ledger, next: Ledger)
    requires Inv(db) && next.attempts == db.attempts && next.ops == db.ops && next.roots == db.roots
    ensures forall i {:trigger AttemptInv(next, i)} :: 0 <= i < |next.attempts| ==> AttemptInv(next, i)
    ensures forall o {:trigger OpInv(next, o)} :: o in next.ops ==> OpInv(next, o)
    ensures forall r {:trigger RootInv(next, r)} :: r in next.roots ==> RootInv(next, r)
  {
    forall i | 0 <= i < |next.attempts| ensures AttemptInv(next, i) {
      assert AttemptInv(db, i);
      AttemptStays(db, next, i);
    }
    forall k | k in next.ops ensures OpInv(next, k) {
      assert OpInv(db, k);
      OpStays(db, next, k);
    }
    forall r | r in next.roots ensures RootInv(next, r) {
      assert RootInv(db, r);
    }
  }

  // ---------------------------------------------------------------- reservation

  lemma BooksAppend(s: seq<Attempt>, a: Attempt, r: RootId, root: Root)
    requires Books(s, r, root) && !a.sent && !a.budgetHeld && a.usage.None?
    ensures Books(s + [a], r, root)
  {
    TotalAppend(s, a, RootSends(r));
    forall u | u in root.budgets
      ensures BudgetOk(root.budgets[u], Total(s + [a], Held(r, u)), Total(s + [a], Used(r, u)),
                       Total(s + [a], Over(r, u)))
    {
      TotalAppend(s, a, Held(r, u));
      TotalAppend(s, a, Used(r, u));
      TotalAppend(s, a, Over(r, u));
    }
  }

  lemma OpAppend(s: seq<Attempt>, a: Attempt, o: OpId, op: Operation, op': Operation)
    requires OpOk(s, o, op) && !a.sent && a.state == Reserved
    requires op' == op || (o == a.op && Queued(op.state)
                           && op' == op.(state := Executing, active := Some(|s|), reason := NoReason))
    ensures OpOk(s + [a], o, op')
  {
    TotalAppend(s, a, OpSends(o));
  }

  lemma InsertSound(db: Ledger, pool: PoolId, owner: OwnerId, o: OpId, now: Time)
    requires Inv(db) && o in db.ops && pool in db.pools && Queued(db.ops[o].state)
    requires OpInv(db, o) && !Closed(db.roots[db.ops[o].spec.root].state)
    ensures Sound(db, Insert(db, pool, owner, o, now))
  {
    var next, a := Insert(db, pool, owner, o, now), NewAttempt(db, pool, owner, o, now);
    InsertEvolves(db, next, o, a);
    InsertRows(db, next, o, a);
    InsertAttempts(db, next, o, a);
  }

  lemma InsertEvolves(db: Ledger, next: Ledger, o: OpId, a: Attempt)
    requires o in db.ops && Queued(db.ops[o].state) && o in next.ops
    requires next == db.(attempts := db.attempts + [a], ops := db.ops[o := next.ops[o]])
    requires next.ops[o].spec == db.ops[o].spec
    ensures Evolves(db, next)
  {
    forall k | k in next.ops ensures OpKept(db, next, k) {
    }
  }

  lemma InsertAttempts(db: Ledger, next: Ledger, o: OpId, a: Attempt)
    requires Inv(db) && o in db.ops && Queued(db.ops[o].state) && OpInv(db, o) && o in next.ops
    requires next == db.(attempts := db.attempts + [a], ops := db.ops[o := next.ops[o]])
    requires o in next.ops && next.ops[o].spec == db.ops[o].spec && next.ops[o].active == Some(|db.attempts|)
    requires !Queued(next.ops[o].state) && AttemptOk(a) && !Stranded(a) && a.op == o && a.root == db.ops[o].spec.root
    requires a.unit == db.ops[o].spec.unit && a.bound == db.ops[o].spec.bound
    ensures forall i {:trigger AttemptInv(next, i)} :: 0 <= i < |next.attempts| ==> AttemptInv(next, i)
  {
    forall i | 0 <= i < |next.attempts| ensures AttemptInv(next, i) {
      if i < |db.attempts| {
        assert AttemptInv(db, i);
        InsertAttempt(db, next, o, i);
      }
    }
  }

  lemma InsertRows(db: Ledger, next: Ledger, o: OpId, a: Attempt)
    requires Inv(db) && o in db.ops && Queued(db.ops[o].state) && a.op == o
    requires !a.sent && !a.budgetHeld && a.usage.None? && a.state == Reserved
    requires Joined(db, o) && !Closed(db.roots[db.ops[o].spec.root].state) && o in next.ops
    requires next == db.(attempts := db.attempts + [a], ops := db.ops[o := next.ops[o]])
    requires next.ops[o] == db.ops[o].(state := Executing, active := Some(|db.attempts|), reason := NoReason)
    ensures forall k {:trigger OpInv(next, k)} :: k in next.ops ==> OpInv(next, k)
    ensures forall r {:trigger RootInv(next, r)} :: r in next.roots ==> RootInv(next, r)
    ensures forall b {:trigger BindingInv(next, b)} :: b in next.bindings ==> BindingInv(next, b)
  {
    forall k | k in next.ops ensures OpInv(next, k) {
      assert OpInv(db, k);
      OpAppend(db.attempts, a, k, db.ops[k], next.ops[k]);
    }
    forall r | r in next.roots ensures RootInv(next, r) {
      assert RootInv(db, r);
      BooksAppend(db.attempts, a, r, db.roots[r]);
    }
    forall b | b in next.bindings ensures BindingInv(next, b) {
      assert BindingInv(db, b);
    }
  }

  /** A queued operation has no live attempt, so its next reservation is the only one. */
  lemma InsertAttempt(db: Ledger, next: Ledger, o: OpId, i: AttemptId)
    requires AttemptInv(db, i) && i < |next.attempts| && next.attempts[i] == db.attempts[i] && next.roots == db.roots
    requires o in db.ops && o in next.ops && Queued(db.ops[o].state) && next.ops[o].spec == db.ops[o].spec
    requires next.ops == db.ops[o := next.ops[o]]
    ensures AttemptInv(next, i)
  {
  }

  lemma ConsiderSound(db: Ledger, pool: PoolId, owner: OwnerId, o: OpId, now: Time)
    requires Inv(db) && pool in db.pools
    ensures Sound(db, Consider(db, pool, owner, o, now).db)
  {
    EvolvesRefl(db);
    if Eligible(db, db.pools[pool], o, now) {
      assert OpInv(db, o);
      var why := ConsiderRow(db, pool, owner, o, now);
      if why.Some? {
        TerminateSound(db, o, OpFailed, why.value);
      } else {
        InsertSound(db, pool, owner, o, now);
        WaitSound(db, o);
      }
    }
  }

  /** The reason for which a candidate is ended, if it is. */
  lemma ConsiderRow(db: Ledger, pool: PoolId, owner: OwnerId, o: OpId, now: Time) returns (why: Option<Why>)
    requires pool in db.pools && Eligible(db, db.pools[pool], o, now)
    ensures var next := Consider(db, pool, owner, o, now).db;
      if why.Some? then next == Terminate(db, o, OpFailed, why.value)
      else next == Insert(db, pool, owner, o, now) || next == db.(ops := db.ops[o := db.ops[o].(reason := BudgetWait)])
  {
    var op := db.ops[o];
    var root := db.roots[op.spec.root];
    why := if Expired(op.spec, now) then Some(OperationDeadline)
           else if op.spec.unit !in root.budgets then Some(BudgetMissing)
           else if op.attempts >= op.spec.maxAttempts then Some(MaxAttempts)
           else if root.attempts >= root.spec.maxAttempts then Some(RootAttempts)
           else if root.budgets[op.spec.unit].spent + op.spec.bound > root.budgets[op.spec.unit].limit
             then Some(BudgetExhausted)
           else None;
  }

  lemma WaitOp(db: Ledger, next: Ledger, o: OpId, k: OpId)
    requires OpInv(db, k) && o in db.ops && !Terminal(db.ops[o].state)
    requires next == db.(ops := db.ops[o := db.ops[o].(reason := BudgetWait)])
    ensures OpInv(next, k) && OpKept(db, next, k)
  {
  }

  lemma WaitAttempts(db: Ledger, next: Ledger, o: OpId)
    requires Inv(db) && o in db.ops && Queued(db.ops[o].state)
    requires next == db.(ops := db.ops[o := db.ops[o].(reason := BudgetWait)])
    ensures forall i {:trigger AttemptInv(next, i)} :: 0 <= i < |next.attempts| ==> AttemptInv(next, i)
  {
    forall i | 0 <= i < |next.attempts| ensures AttemptInv(next, i) {
      assert AttemptInv(db, i);
      InsertAttempt(db, next, o, i);
    }
  }

  lemma WaitBooks(db: Ledger, next: Ledger, o: OpId)
    requires Inv(db) && o in db.ops && Queued(db.ops[o].state)
    requires next == db.(ops := db.ops[o := db.ops[o].(reason := BudgetWait)])
    ensures forall r {:trigger RootInv(next, r)} :: r in next.roots ==> RootInv(next, r)
    ensures forall b {:trigger BindingInv(next, b)} :: b in next.bindings ==> BindingInv(next, b)
  {
    forall r | r in next.roots ensures RootInv(next, r) {
      assert RootInv(db, r);
    }
    forall b | b in next.bindings ensures BindingInv(next, b) {
      assert BindingInv(db, b);
    }
  }

  lemma WaitSound(db: Ledger, o: OpId)
    requires Inv(db) && o in db.ops && Queued(db.ops[o].state)
    ensures Sound(db, db.(ops := db.ops[o := db.ops[o].(reason := BudgetWait)]))
  {
    var next := db.(ops := db.ops[o := db.ops[o].(reason := BudgetWait)]);
    WaitAttempts(db, next, o);
    WaitBooks(db, next, o);
    forall k | k in next.ops ensures OpInv(next, k) && OpKept(db, next, k) {
      assert OpInv(db, k);
      WaitOp(db, next, o, k);
    }
  }

  lemma {:induction false} ScanSound(db: Ledger, pool: PoolId, owner: OwnerId, candidates: seq<OpId>, now: Time)
    requires Inv(db) && pool in db.pools
    ensures Sound(db, Scan(db, pool, owner, candidates, now).0)
    decreases |candidates|
  {
    EvolvesRefl(db);
    if candidates != [] {
      ConsiderSound(db, pool, owner, candidates[0], now);
      match Consider(db, pool, owner, candidates[0], now)
      case Take(_, _) =>
      case Skip(next) =>
        ScanSound(next, pool, owner, candidates[1..], now);
        EvolvesTrans(db, next, Scan(next, pool, owner, candidates[1..], now).0);
    }
  }
}
