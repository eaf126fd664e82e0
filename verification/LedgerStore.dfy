/**
 The ledger as the store keeps it: tables that each transaction updates row by
 row.  Every method is proved to do exactly what the transaction of module
 Ledger says, and to change nothing when it reports an error.

 Helpers promise single tables; a transaction is put together from them by
 `WrittenIs`, which says when the tables are those of the specification.
 */
module LedgerStore {
  import opened Ledger
  import opened LedgerInvariant
  import Spec = Ledger

  /** What a transaction that reports `error` made of the ledger. */
  predicate Outcome(db: Ledger, next: Ledger, error: Option<Error>, t: Tx) {
    match t
    case Commit(after) => error.None? && next == after
    case Abort(e) => error == Some(e) && next == db
  }

  /** The executor still owns a live attempt of an open operation of an open run. */
  predicate Wanted(db: Ledger, res: Reservation) {
    && Owned(db, res)
    && var a := db.attempts[res.attempt];
       && !Final(a.state) && a.state != Unknown
       && !db.roots[a.root].cancelRequested && db.roots[a.root].state == Running
       && !Terminal(db.ops[a.op].state)
  }

  /** The tables after `_settle_stopped_attempt`, its operation left in the row `op'`. */
  lemma StoppedIs(db: Ledger, next: Ledger, i: AttemptId, op': Operation, recover: bool, error: Why, retryWhy: Why,
                  now: Time)
    requires Linked(db, i)
    requires var a := db.attempts[i];
      var root' := SettledRoot(db.roots[a.root], a, StoppedUsage(a));
      && op' == StoppedOp(db.ops[a.op], root', i, a, recover, error, retryWhy, now)
      && next == db.(attempts := db.attempts[i := StoppedAttempt(a)], roots := db.roots[a.root := root'],
                     ops := db.ops[a.op := op'], pools := SettledPools(db.pools, a, StoppedUsage(a)),
                     completions := if Terminal(op'.state) && !Terminal(db.ops[a.op].state)
                                    then db.completions + BindingsOf(db.bindings, {a.op}) else db.completions)
    ensures next == SettleStopped(db, i, recover, error, retryWhy, now)
  {
  }

  /** `next` is `db` with the rows of one attempt written, and nothing else changed. */
  lemma WrittenIs(db: Ledger, next: Ledger, i: AttemptId, a: Attempt, op: Operation, root: Root, publish: bool)
    requires i < |db.attempts| && next.attempts == db.attempts[i := a]
    requires next.ops == db.ops[a.op := op] && next.roots == db.roots[a.root := root]
    requires next.completions == if publish then db.completions + BindingsOf(db.bindings, {a.op}) else db.completions
    requires next == db.(attempts := next.attempts, ops := next.ops, roots := next.roots, pools := next.pools,
                         completions := next.completions)
    ensures next == Written(db, i, a, op, root, next.pools, publish)
  {
  }

  // ---------------------------------------------------------------- loops over tables

  lemma TerminateMore(db: Ledger, done: set<OpId>, o: OpId, s: OpState, why: Why)
    requires o in db.ops && o !in done && done <= db.ops.Keys
    ensures o in TerminateAll(db, done, s, why).ops
    ensures Terminate(TerminateAll(db, done, s, why), o, s, why) == TerminateAll(db, done + {o}, s, why)
  {
    var x, y := Terminate(TerminateAll(db, done, s, why), o, s, why), TerminateAll(db, done + {o}, s, why);
    assert x.ops == y.ops;
    assert x.completions == y.completions;
  }

  lemma TerminateNone(db: Ledger, s: OpState, why: Why)
    ensures TerminateAll(db, {}, s, why) == db
  {
    assert TerminateAll(db, {}, s, why).ops == db.ops;
    assert BindingsOf(db.bindings, {}) == {};
  }

  class Store {
    const maxRoots: nat
    const maxPending: nat
    const leaseSeconds: nat
    var roots: map<RootId, Root>
    var ops: map<OpId, Operation>
    var attempts: seq<Attempt>
    var pools: map<PoolId, Pool>
    var groups: map<GroupId, Health>
    var owners: map<OwnerId, Owner>
    var bindings: map<BindingId, OpId>
    var completions: set<BindingId>
    var cancels: set<RootId>

    /** The ledger the tables hold. */
    function Db(): Ledger
      reads this
    {
      Spec.Ledger.Ledger(maxRoots, maxPending, leaseSeconds, roots, ops, attempts, pools, groups, owners, bindings,
                         completions, cancels)
    }

    constructor (maxRoots: nat, maxPending: nat, leaseSeconds: nat)
      ensures Inv(Db()) && attempts == [] && roots == map[] && ops == map[]
      ensures this.maxRoots == maxRoots && this.maxPending == maxPending && this.leaseSeconds == leaseSeconds
    {
      this.maxRoots, this.maxPending, this.leaseSeconds := maxRoots, maxPending, leaseSeconds;
      roots, ops, attempts, pools, groups, owners := map[], map[], [], map[], map[], map[];
      bindings, completions, cancels := map[], {}, {};
    }

    // -------------------------------------------------------------- helpers inside a transaction

    /** `_completion_events`: one outbox row per binding, at most once. */
    method CompletionEvents(o: OpId)
      modifies this`completions
      ensures completions == old(completions) + BindingsOf(bindings, {o})
    {
      var rest := bindings.Keys;
      while rest != {}
        invariant rest <= bindings.Keys
        invariant completions == old(completions) + (set b | b in bindings && b !in rest && bindings[b] == o)
        decreases |rest|
      {
        var b :| b in rest;
        if bindings[b] == o {
          completions := completions + {b};
        }
        rest := rest - {b};
      }
      assert completions == old(completions) + BindingsOf(bindings, {o});
    }

    /** `_terminal`. */
    method EndOperation(o: OpId, s: OpState, why: Why)
      requires o in ops
      modifies this`ops, this`completions
      ensures ops == old(ops)[o := Ended(old(ops)[o], s, why)]
      ensures completions == old(completions) + BindingsOf(bindings, {o})
    {
      if !Terminal(ops[o].state) {
        ops := ops[o := ops[o].(state := s, reason := why)];
      }
      CompletionEvents(o);
    }

    /** `_terminal` for each selected operation. */
    method TerminateEach(os: set<OpId>, s: OpState, why: Why)
      requires os <= ops.Keys
      modifies this`ops, this`completions
      ensures Db() == TerminateAll(old(Db()), os, s, why)
    {
      var rest := os;
      TerminateNone(Db(), s, why);
      assert os - rest == {};
      while rest != {}
        invariant rest <= os
        invariant Db() == TerminateAll(old(Db()), os - rest, s, why)
        decreases |rest|
      {
        var o :| o in rest;
        TerminateMore(old(Db()), os - rest, o, s, why);
        EndOperation(o, s, why);
        assert os - rest + {o} == os - (rest - {o});
        rest := rest - {o};
      }
      assert os - rest == os;
    }

    /** `_settle`: the reservation of a sent attempt becomes its usage, once. */
    method Settle(i: AttemptId, usage: Option<nat>)
      requires Linked(Db(), i)
      modifies this`attempts, this`roots, this`pools
      ensures var a := old(attempts)[i];
        && attempts == old(attempts)[i := SettledAttempt(a, usage)]
        && roots == old(roots)[a.root := SettledRoot(old(roots)[a.root], a, usage)]
        && pools == SettledPools(old(pools), a, usage)
    {
      var a := attempts[i];
      if !a.budgetHeld {
        assert attempts == attempts[i := a] && roots == roots[a.root := roots[a.root]];
        return;
      }
      var charged := if usage.None? then a.bound else usage.value;
      attempts := attempts[i := a.(budgetHeld := false, usage := Some(charged))];
      var root := roots[a.root];
      var budget := root.budgets[a.unit];
      budget := budget.(reserved := budget.reserved - a.bound, spent := budget.spent + charged);
      root := root.(budgets := root.budgets[a.unit := budget]);
      if budget.spent > budget.limit && root.state == Running {
        root := root.(state := Failed, reason := UsageExceedsBudget);
      }
      roots := roots[a.root := root];
      if charged > a.bound && a.pool in pools {
        pools := pools[a.pool := pools[a.pool].(target := 0, health := Degraded)];
      }
    }

    // -------------------------------------------------------------- admission

    /** `_root`. */
    method CreateRoot(id: RootId, spec: RootSpec, now: Time) returns (error: Option<Error>)
      modifies this
      ensures Outcome(old(Db()), Db(), error, Spec.CreateRoot(old(Db()), id, spec, now))
    {
      if !ValidRootSpec(spec) {
        return Some(Invalid);
      }
      if id in roots {
        return if roots[id].spec != spec then Some(Conflict) else None;
      }
      var running := set r | r in roots && roots[r].state == Running;
      if |running| >= maxRoots {
        return Some(Denied(true));
      }
      if spec.deadline <= now {
        return Some(Denied(false));
      }
      roots := roots[id := NewRoot(spec)];
      return None;
    }

    /** `submit_operation`. */
    method SubmitOperation(id: OpId, spec: OpSpec, now: Time) returns (error: Option<Error>)
      modifies this
      ensures Outcome(old(Db()), Db(), error, Spec.SubmitOperation(old(Db()), id, spec, now))
    {
      if id in ops {
        return if ops[id].spec != spec then Some(Conflict) else None;
      }
      if spec.root !in roots || roots[spec.root].spec.tenant != spec.tenant {
        return Some(NotFound);
      }
      var root := roots[spec.root];
      if root.cancelRequested || root.state != Running || root.spec.deadline <= now
         || spec.unit !in root.spec.limits || root.operations >= root.spec.maxOperations {
        return Some(Denied(false));
      }
      var ofRoot, ofModel := OpenOps(Db(), spec.root), OpenOpsOfModel(Db(), spec.model);
      if !Expired(spec, now) && (|ofRoot| >= root.spec.maxPending || |ofModel| >= maxPending) {
        return Some(Denied(true));
      }
      AddOperation(id, spec, now);
      return None;
    }

    /** The insertion that ends `submit_operation`. */
    method AddOperation(id: OpId, spec: OpSpec, now: Time)
      requires spec.root in roots
      modifies this`ops, this`roots, this`completions
      ensures Db() == Spec.AddOperation(old(Db()), id, spec, now)
    {
      ops := ops[id := Operation(spec, Ready, None, 0, None, None, NoReason)];
      roots := roots[spec.root := roots[spec.root].(operations := roots[spec.root].operations + 1)];
      if Expired(spec, now) {
        EndOperation(id, OpFailed, OperationDeadline);
      }
      assert ops == Spec.AddOperation(old(Db()), id, spec, now).ops;
    }

    // -------------------------------------------------------------- reservation

    /** One candidate of `reserve_next`: skip it, end its operation, or reserve it. */
    method Consider(pool: PoolId, owner: OwnerId, o: OpId, now: Time) returns (reservation: Option<Reservation>)
      requires pool in pools
      modifies this`ops, this`attempts, this`completions
      ensures match Spec.Consider(old(Db()), pool, owner, o, now)
              case Skip(db) => reservation.None? && Db() == db
              case Take(db, r) => reservation == Some(r) && Db() == db
    {
      reservation := None;
      if !Eligible(Db(), pools[pool], o, now) {
        return;
      }
      var op := ops[o];
      var root := roots[op.spec.root];
      if Expired(op.spec, now) {
        EndOperation(o, OpFailed, OperationDeadline);
      } else if op.spec.unit !in root.budgets {
        EndOperation(o, OpFailed, BudgetMissing);
      } else {
        var budget := root.budgets[op.spec.unit];
        if op.attempts >= op.spec.maxAttempts {
          EndOperation(o, OpFailed, MaxAttempts);
        } else if root.attempts >= root.spec.maxAttempts {
          EndOperation(o, OpFailed, RootAttempts);
        } else if budget.spent + op.spec.bound > budget.limit {
          EndOperation(o, OpFailed, BudgetExhausted);
        } else if budget.spent + budget.reserved + op.spec.bound > budget.limit {
          ops := ops[o := op.(reason := BudgetWait)];
        } else {
          var id, number := |attempts|, MaxNumber(attempts, o) + 1;
          attempts := attempts + [Attempt(o, op.spec.root, pool, pools[pool].epoch, number, owner, op.spec.unit,
                                          op.spec.bound, now, now + leaseSeconds, Reserved, false, false, false, false,
                                          None, None)];
          ops := ops[o := op.(state := Executing, active := Some(id), reason := NoReason)];
          reservation := Some(Reservation(id, owner, number));
        }
      }
    }

    /** `reserve_next`. */
    method ReserveNext(pool: PoolId, owner: OwnerId, candidates: seq<OpId>, now: Time)
      returns (reservation: Option<Reservation>)
      modifies this`ops, this`attempts, this`completions
      ensures (Db(), reservation) == Spec.ReserveNext(old(Db()), pool, owner, candidates, now)
    {
      reservation := None;
      if pool !in pools || pools[pool].health != Healthy || pools[pool].target == 0
         || pools[pool].spec.group !in groups || groups[pools[pool].spec.group] != Healthy {
        return;
      }
      var k := 0;
      assert candidates[0..] == candidates;
      while k < |candidates|
        invariant k <= |candidates| && reservation.None? && pool in pools
        invariant Scan(Db(), pool, owner, candidates[k..], now) == Scan(old(Db()), pool, owner, candidates, now)
      {
        assert candidates[k..][0] == candidates[k] && candidates[k..][1..] == candidates[k + 1..];
        reservation := Consider(pool, owner, candidates[k], now);
        if reservation.Some? {
          return;
        }
        k := k + 1;
      }
    }

    // -------------------------------------------------------------- calls of the owner

    /** `mark_send`. */
    method MarkSend(res: Reservation, now: Time) returns (error: Option<Error>)
      modifies this`attempts, this`ops, this`roots
      ensures Outcome(old(Db()), Db(), error, Spec.MarkSend(old(Db()), res, now))
    {
      if !Owned(Db(), res) {
        return Some(Conflict);
      }
      var a := attempts[res.attempt];
      var op, root := ops[a.op], roots[a.root];
      if a.state != Reserved || op.state != Executing || (a.lease <= now && !OwnerAlive(Db(), res.owner, now))
         || root.cancelRequested || root.state != Running || AttemptDeadline(a, op.spec, root) <= now {
        return Some(Conflict);
      }
      if op.attempts >= op.spec.maxAttempts || root.attempts >= root.spec.maxAttempts {
        return Some(SendBudget(true));
      }
      var budget := root.budgets[a.unit];
      if budget.spent + budget.reserved + a.bound > budget.limit {
        return Some(SendBudget(false));
      }
      ChargeAndSend(res.attempt);
      return None;
    }

    /** The updates of `mark_send`: both counters, the budget, and the attempt. */
    method ChargeAndSend(i: AttemptId)
      requires Linked(Db(), i)
      modifies this`attempts, this`ops, this`roots
      ensures var db, a := old(Db()), old(attempts)[i];
        var op := db.ops[a.op];
        Db() == Written(db, i, SentAttempt(a), op.(attempts := op.attempts + 1), ChargedRoot(db.roots[a.root], a),
                        db.pools, false)
    {
      var a := attempts[i];
      var op, root := ops[a.op], roots[a.root];
      var budget := root.budgets[a.unit];
      ops := ops[a.op := op.(attempts := op.attempts + 1)];
      roots := roots[a.root := root.(attempts := root.attempts + 1)];
      budget := budget.(reserved := budget.reserved + a.bound);
      roots := roots[a.root := roots[a.root].(budgets := root.budgets[a.unit := budget])];
      attempts := attempts[i := a.(state := SendIntent, computeHeld := true, budgetHeld := true, sent := true)];
      assert roots == old(roots)[a.root := ChargedRoot(root, a)];
    }

    /** `heartbeat`; `active` tells the executor whether its request is still wanted. */
    method Heartbeat(res: Reservation, now: Time) returns (error: Option<Error>, active: bool)
      modifies this`attempts
      ensures Outcome(old(Db()), Db(), error, Spec.Heartbeat(old(Db()), res, now))
      ensures active <==> Wanted(old(Db()), res)
    {
      if !Owned(Db(), res) {
        return Some(Conflict), false;
      }
      var a := attempts[res.attempt];
      if Final(a.state) || a.state == Unknown {
        return None, false;
      }
      if !OwnerAlive(Db(), res.owner, now) {
        attempts := attempts[res.attempt := a.(lease := now + leaseSeconds)];
      }
      var root := roots[a.root];
      return None, !root.cancelRequested && root.state == Running && !Terminal(ops[a.op].state);
    }

    /** `compute_finished`. */
    method ComputeFinished(res: Reservation) returns (error: Option<Error>)
      modifies this`attempts
      ensures Outcome(old(Db()), Db(), error, Spec.ComputeFinished(old(Db()), res))
    {
      if !Owned(Db(), res) {
        return Some(Conflict);
      }
      var a := attempts[res.attempt];
      if !Final(a.state) {
        attempts := attempts[res.attempt := a.(computeHeld := false, finished := true, state := BackendFinished)];
      }
      return None;
    }

    /** `commit_result`. */
    method CommitResult(res: Reservation, artifact: Blob, usage: Option<nat>, now: Time) returns (error: Option<Error>)
      modifies this
      ensures Outcome(old(Db()), Db(), error, Spec.CommitResult(old(Db()), res, artifact, usage, now))
    {
      if !Owned(Db(), res) {
        return Some(Conflict);
      }
      var i := res.attempt;
      var a := attempts[i];
      var op := ops[a.op];
      if a.state == ResultCommitted {
        return if op.result.Some? && op.result.value != artifact then Some(Conflict) else None;
      }
      if a.computeHeld || a.state != BackendFinished {
        return Some(Conflict);
      }
      CommitFinished(i, artifact, usage, now);
      return None;
    }

    /** `commit_result` of a finished attempt. */
    method CommitFinished(i: AttemptId, artifact: Blob, usage: Option<nat>, now: Time)
      requires Linked(Db(), i)
      modifies this
      ensures var db, a := old(Db()), old(attempts)[i];
        Db() == Written(db, i, SettledAttempt(a, usage).(state := ResultCommitted),
                        AnsweredOp(db.ops[a.op], db.roots[a.root], artifact, now),
                        SettledRoot(db.roots[a.root], a, usage),
                        SettledPools(db.pools, a, usage), true)
    {
      var a := attempts[i];
      var op, root := ops[a.op], roots[a.root];
      if Expired(op.spec, now) {
        EndOperation(a.op, OpFailed, OperationDeadline);
      }
      Settle(i, usage);
      attempts := attempts[i := attempts[i].(state := ResultCommitted)];
      Answer(a.op, op, root, artifact, now);
      WrittenIs(old(Db()), Db(), i, attempts[i], AnsweredOp(op, root, artifact, now), SettledRoot(root, a, usage),
                true);
    }

    /** The end of `commit_result`, for the rows `op` and `root` it first read. */
    method Answer(o: OpId, op: Operation, root: Root, artifact: Blob, now: Time)
      requires o in ops && ops[o] == if Expired(op.spec, now) then Ended(op, OpFailed, OperationDeadline) else op
      modifies this`ops, this`completions
      ensures ops == old(ops)[o := AnsweredOp(op, root, artifact, now)]
      ensures completions == old(completions) + BindingsOf(bindings, {o})
    {
      var cancelled := root.cancelRequested || op.state == OpCancelled || root.state != Running;
      var terminal := Expired(op.spec, now) || Terminal(op.state);
      if !cancelled && !terminal {
        ops := ops[o := ops[o].(state := OpSucceeded, result := Some(artifact), reason := NoReason)];
      } else if !terminal {
        EndOperation(o, OpFailed, RootTerminal);
      }
      CompletionEvents(o);
    }

    /** `unknown`. */
    method MarkUnknown(res: Reservation, why: Why, now: Time) returns (error: Option<Error>)
      modifies this`attempts, this`ops, this`completions
      ensures Outcome(old(Db()), Db(), error, Spec.MarkUnknown(old(Db()), res, why, now))
    {
      if !Owned(Db(), res) {
        return Some(Conflict);
      }
      var a := attempts[res.attempt];
      if Final(a.state) {
        return None;
      }
      Lose(res.attempt, why, now);
      return None;
    }

    /** `unknown` of a live attempt. */
    method Lose(i: AttemptId, why: Why, now: Time)
      requires Linked(Db(), i)
      modifies this`attempts, this`ops, this`completions
      ensures var db, a := old(Db()), old(attempts)[i];
        Db() == Written(db, i, LostAttempt(a, now), UncertainOp(db.ops[a.op], why, now), db.roots[a.root], db.pools,
                        Expired(db.ops[a.op].spec, now))
    {
      var a := attempts[i];
      ghost var op := ops[a.op];
      attempts := attempts[i := a.(state := Unknown,
                                   unknownAt := if a.unknownAt.Some? then a.unknownAt else Some(now))];
      EndUncertain(a.op, why, now);
      assert roots == old(roots)[a.root := roots[a.root]];
      WrittenIs(old(Db()), Db(), i, LostAttempt(a, now), UncertainOp(op, why, now), roots[a.root],
                Expired(op.spec, now));
    }

    /** The end of `unknown`. */
    method EndUncertain(o: OpId, why: Why, now: Time)
      requires o in ops
      modifies this`ops, this`completions
      ensures ops == old(ops)[o := UncertainOp(old(ops)[o], why, now)]
      ensures completions == if Expired(old(ops)[o].spec, now) then old(completions) + BindingsOf(bindings, {o})
        else old(completions)
    {
      if Expired(ops[o].spec, now) {
        EndOperation(o, OpFailed, OperationDeadline);
      } else if !Terminal(ops[o].state) {
        ops := ops[o := ops[o].(state := Reconciling, reason := why)];
      }
    }

    /** `fail`. */
    method Fail(res: Reservation, why: Why, notSent: bool, retry: bool, delay: nat, now: Time)
      returns (error: Option<Error>)
      modifies this
      ensures Outcome(old(Db()), Db(), error, Spec.Fail(old(Db()), res, why, notSent, retry, delay, now))
    {
      if !Owned(Db(), res) {
        return Some(Conflict);
      }
      var i := res.attempt;
      var a := attempts[i];
      if Final(a.state) {
        return None;
      }
      if a.computeHeld && !notSent {
        return Some(Conflict);
      }
      FailLive(i, why, notSent, retry, delay, now);
      return None;
    }

    /** `fail` of a live attempt. */
    method FailLive(i: AttemptId, why: Why, notSent: bool, retry: bool, delay: nat, now: Time)
      requires Linked(Db(), i)
      modifies this
      ensures var db, a := old(Db()), old(attempts)[i];
        var usage := if notSent then Some(0) else None;
        var op' := FailedOp(db.ops[a.op], db.roots[a.root], why, retry, delay, now);
        Db() == Written(db, i, FailedAttempt(a, notSent), op', SettledRoot(db.roots[a.root], a, usage),
                        SettledPools(db.pools, a, usage), Terminal(op'.state) && !Terminal(db.ops[a.op].state))
    {
      var a := attempts[i];
      var op, root := ops[a.op], roots[a.root];
      FailRow(i, notSent);
      EndFailed(a.op, root, why, retry, delay, now);
      ghost var op' := FailedOp(op, root, why, retry, delay, now);
      WrittenIs(old(Db()), Db(), i, FailedAttempt(a, notSent), op',
                SettledRoot(root, a, if notSent then Some(0) else None),
                Terminal(op'.state) && !Terminal(op.state));
    }

    /** The attempt's own part of `fail`: what it used is charged, and it holds nothing. */
    method FailRow(i: AttemptId, notSent: bool)
      requires Linked(Db(), i)
      modifies this`attempts, this`roots, this`pools
      ensures var a := old(attempts)[i];
        var usage := if notSent then Some(0) else None;
        && attempts == old(attempts)[i := FailedAttempt(a, notSent)]
        && roots == old(roots)[a.root := SettledRoot(old(roots)[a.root], a, usage)]
        && pools == SettledPools(old(pools), a, usage)
    {
      Settle(i, if notSent then Some(0) else None);
      attempts := attempts[i := attempts[i].(state := if notSent then FailedNotSent else AttemptFailed,
                                             computeHeld := false)];
    }

    /** The end of `fail`, for the row `root` it first read. */
    method EndFailed(o: OpId, root: Root, why: Why, retry: bool, delay: nat, now: Time)
      requires o in ops
      modifies this`ops, this`completions
      ensures ops == old(ops)[o := FailedOp(old(ops)[o], root, why, retry, delay, now)]
      ensures completions == if Terminal(ops[o].state) && !Terminal(old(ops)[o].state)
                             then old(completions) + BindingsOf(bindings, {o}) else old(completions)
    {
      var op := ops[o];
      if Terminal(op.state) {
        return;
      }
      if root.cancelRequested {
        EndOperation(o, OpCancelled, UserCancelled);
      } else if root.state != Running {
        EndOperation(o, OpFailed, RootTerminal);
      } else if Expired(op.spec, now) {
        EndOperation(o, OpFailed, OperationDeadline);
      } else if retry {
        ops := ops[o := op.(state := RetryWait, reason := why, retryAt := Some(now + delay))];
      } else {
        EndOperation(o, OpFailed, why);
      }
    }

    // -------------------------------------------------------------- ending a run

    /** `cancel`. */
    method Cancel(id: RootId, tenant: TenantId) returns (error: Option<Error>)
      modifies this
      ensures Outcome(old(Db()), Db(), error, Spec.Cancel(old(Db()), id, tenant))
    {
      if id !in roots || roots[id].spec.tenant != tenant {
        return Some(NotFound);
      }
      if roots[id].state in {Succeeded, Partial, Failed} {
        return None;
      }
      roots := roots[id := roots[id].(cancelRequested := true, state := Cancelled, reason := UserCancelled)];
      var pending := set o | o in ops && ops[o].spec.root == id && !Terminal(ops[o].state);
      TerminateEach(pending, OpCancelled, UserCancelled);
      cancels := cancels + {id};
      return None;
    }

    /** `finish_run`. */
    method FinishRun(id: RootId, tenant: TenantId, state: RunState, result: Option<Blob>, why: Why, now: Time, at: Time)
      returns (error: Option<Error>)
      modifies this
      ensures Outcome(old(Db()), Db(), error, Spec.FinishRun(old(Db()), id, tenant, state, result, why, now, at))
    {
      if state == Cancelled {
        if result.Some? {
          return Some(Invalid);
        }
        error := Cancel(id, tenant);
        return;
      }
      if state == Running || (state == Partial && (result.None? || why == NoReason)) {
        return Some(Invalid);
      }
      if id !in roots || roots[id].spec.tenant != tenant {
        return Some(NotFound);
      }
      var root := roots[id];
      if root.state != Running {
        return if root.state == state && root.result != result then Some(Conflict) else None;
      }
      error := FinishRunning(id, state, result, why, now, at);
    }

    /** `finish_run` of a run that has not ended. */
    method FinishRunning(id: RootId, state: RunState, result: Option<Blob>, why: Why, now: Time, at: Time)
      returns (error: Option<Error>)
      requires id in roots
      modifies this`roots, this`ops, this`completions
      ensures Outcome(old(Db()), Db(), error, Spec.FinishRunning(old(Db()), id, state, result, why, now, at))
    {
      var root := roots[id];
      var pending := OpenOps(Db(), id);
      if root.spec.deadline > now && state == Succeeded && pending != {} {
        return Some(Conflict);
      }
      var state', result', why' := state, result, why;
      if root.spec.deadline <= now || root.spec.deadline <= at {
        state', result', why' := Failed, None, DeadlineExceeded;
      }
      EndRun(id, root.(state := state', result := result', reason := why'), pending);
      return None;
    }

    /** The update that ends a run; only a run that succeeded leaves its operations alone. */
    method EndRun(id: RootId, root: Root, pending: set<OpId>)
      requires pending == OpenOps(Db(), id)
      modifies this`roots, this`ops, this`completions
      ensures Db() == if root.state == Succeeded then old(Db()).(roots := old(roots)[id := root])
                      else CloseRoot(old(Db()), id, root, if root.reason == NoReason then RootFinished else root.reason)
    {
      roots := roots[id := root];
      if root.state != Succeeded {
        TerminateEach(pending, OpCancelled, if root.reason == NoReason then RootFinished else root.reason);
      }
    }

    /** `bind_completion`. */
    method BindCompletion(o: OpId, tenant: TenantId, b: BindingId) returns (error: Option<Error>)
      modifies this`bindings, this`completions
      ensures Outcome(old(Db()), Db(), error, Spec.BindCompletion(old(Db()), o, tenant, b))
    {
      if o !in ops || ops[o].spec.tenant != tenant {
        return Some(NotFound);
      }
      if b !in bindings {
        bindings := bindings[b := o];
      }
      if Terminal(ops[o].state) {
        CompletionEvents(o);
      }
      return None;
    }

    // -------------------------------------------------------------- settling without the owner

    /** One row of the attempt loop of `reconcile_expired`. */
    method TakeBack(i: AttemptId, now: Time)
      requires Linked(Db(), i)
      modifies this`attempts, this`ops, this`roots, this`pools
      ensures forall seen :: Abandoned(seen, i, now) ==> Db() == ReconcileAttempt(old(Db()), seen, i, now)
    {
      var a := attempts[i];
      if a.state == Reserved {
        Settle(i, Some(0));
        attempts := attempts[i := attempts[i].(state := FailedNotSent, computeHeld := false)];
        if !Terminal(ops[a.op].state) {
          ops := ops[a.op := ops[a.op].(state := Ready, active := None)];
        }
        assert attempts == old(attempts)[i := FailedAttempt(a, true)];
      } else {
        attempts := attempts[i := a.(state := Unknown, unknownAt := Some(now))];
        if !Terminal(ops[a.op].state) {
          ops := ops[a.op := ops[a.op].(state := Reconciling, reason := UnknownComputeOrResult)];
        }
        assert roots == roots[a.root := roots[a.root]];
      }
      assert ops == old(ops)[a.op := AbandonedOp(old(ops)[a.op], a.state == Reserved)];
    }

    /** The first transaction of `reconcile_expired`. */
    method ReconcileExpired(page: set<OpId>, now: Time)
      modifies this
      ensures Db() == Reconcile(old(Db()), page, now)
    {
      var expired := set o | o in ops && !Terminal(ops[o].state) && Expired(ops[o].spec, now);
      TerminateEach(expired, OpFailed, OperationDeadline);
      TakeBackEach(now);
      TerminateEach(LateOps(Db(), now), OpFailed, DeadlineExceeded);
      TerminateEach(ImpossibleOps(Db(), page), OpFailed, ImpossibleRequest);
      FailLate(now);
      TerminateEach(OrphanedOps(Db()), OpCancelled, RootTerminal);
    }

    /** The loop over attempts, which its query selected before the first turn. */
    method TakeBackEach(now: Time)
      modifies this
      ensures Db() == ReconcileAttempts(old(Db()), old(Db()), |old(attempts)|, now)
    {
      var seen, k := Db(), 0;
      while k < |seen.attempts|
        invariant k <= |seen.attempts| == |attempts|
        invariant Db() == ReconcileAttempts(seen, seen, k, now)
      {
        if Abandoned(seen, k, now) && Linked(Db(), k) {
          TakeBack(k, now);
        }
        k := k + 1;
      }
    }

    /** Runs past their deadline fail. */
    method FailLate(now: Time)
      modifies this`roots
      ensures Db() == FailLateRoots(old(Db()), now)
    {
      roots := map r | r in roots ::
        if roots[r].state == Running && roots[r].spec.deadline <= now
        then roots[r].(state := Failed, reason := DeadlineExceeded) else roots[r];
    }

    /** `_settle_stopped_attempt`, row by row: the attempt with its books, then its operation. */
    method SettleStoppedAttempt(i: AttemptId, recover: bool, error: Why, retryWhy: Why, now: Time)
      requires Linked(Db(), i)
      modifies this`attempts, this`ops, this`roots, this`pools, this`completions
      ensures Db() == SettleStopped(old(Db()), i, recover, error, retryWhy, now)
    {
      var a := attempts[i];
      ghost var op := ops[a.op];
      StopRow(i);
      EndStopped(i, a, recover, error, retryWhy, now);
      ghost var op' := StoppedOp(op, roots[a.root], i, a, recover, error, retryWhy, now);
      StoppedIs(old(Db()), Db(), i, op', recover, error, retryWhy, now);
    }

    /** The attempt's own part of `_settle_stopped_attempt`: usage charged, nothing held. */
    method StopRow(i: AttemptId)
      requires Linked(Db(), i)
      modifies this`attempts, this`roots, this`pools
      ensures var a := old(attempts)[i];
        && attempts == old(attempts)[i := StoppedAttempt(a)]
        && roots == old(roots)[a.root := SettledRoot(old(roots)[a.root], a, StoppedUsage(a))]
        && pools == SettledPools(old(pools), a, StoppedUsage(a))
    {
      Settle(i, if attempts[i].state == Reserved then Some(0) else None);
      attempts := attempts[i := attempts[i].(state := AttemptFailed, computeHeld := false, finished := true)];
    }

    /** The end of `_settle_stopped_attempt`: queue the operation again, or end it. */
    method EndStopped(i: AttemptId, a: Attempt, recover: bool, error: Why, retryWhy: Why, now: Time)
      requires a.op in ops && a.root in roots
      modifies this`ops, this`completions
      ensures ops == old(ops)[a.op := StoppedOp(old(ops)[a.op], roots[a.root], i, a, recover, error, retryWhy, now)]
      ensures completions == if Terminal(ops[a.op].state) && !Terminal(old(ops)[a.op].state)
                             then old(completions) + BindingsOf(bindings, {a.op}) else old(completions)
    {
      var op := ops[a.op];
      if Terminal(op.state) {
        return;
      }
      if recover && CanRetry(op, roots[a.root], a, now) {
        if op.active == Some(i) {
          ops := ops[a.op := op.(state := RetryWait, active := None, reason := retryWhy, retryAt := Some(now))];
        }
      } else {
        EndOperation(a.op, OpFailed, error);
      }
    }

    /** One transaction of `_settle_lost_results`. */
    method SettleLostResult(i: AttemptId, now: Time)
      modifies this
      ensures Db() == SettleLost(old(Db()), i, now)
    {
      if Lost(Db(), i, now) {
        SettleStoppedAttempt(i, true, ResultLost, ResultLost, now);
      }
    }

    /** The attempt loop of `confirm_epoch_stopped` and `settle_idle_unknown`. */
    method SettleEach(seen: seq<Attempt>, p: PoolId, epoch: Epoch, e: Evidence, now: Time)
      requires |seen| == |attempts|
      modifies this
      ensures Db() == SettleProven(old(Db()), seen, p, epoch, e, |seen|, now)
    {
      var k := 0;
      while k < |seen|
        invariant k <= |seen| == |attempts|
        invariant Db() == SettleProven(old(Db()), seen, p, epoch, e, k, now)
      {
        if Proven(seen[k], k, p, epoch, e) && Linked(Db(), k) {
          var recover := match e case EpochStopped(recover) => recover case IdleSince(_, _) => true;
          var why := match e case EpochStopped(_) => EngineStopped case IdleSince(_, _) => EngineIdle;
          SettleStoppedAttempt(k, recover, why, EngineRecovery, now);
        }
        k := k + 1;
      }
    }

    /** `confirm_epoch_stopped`. */
    method ConfirmEpochStopped(p: PoolId, epoch: Epoch, recover: bool, now: Time) returns (error: Option<Error>)
      modifies this
      ensures Outcome(old(Db()), Db(), error, Spec.ConfirmEpochStopped(old(Db()), p, epoch, recover, now))
    {
      if p !in pools || pools[p].epoch != epoch || (recover && pools[p].health == Healthy) {
        return Some(Conflict);
      }
      pools := pools[p := pools[p].(target := 0, health := Unavailable)];
      SettleEach(attempts, p, epoch, EpochStopped(recover), now);
      return None;
    }

    /** `settle_idle_unknown`. */
    method SettleIdleUnknown(p: PoolId, epoch: Epoch, since: Time, ids: set<AttemptId>, now: Time)
      modifies this
      ensures Db() == SettleIdle(old(Db()), p, epoch, since, ids, now)
    {
      if p in pools && pools[p].epoch == epoch {
        SettleEach(attempts, p, epoch, IdleSince(since, ids), now);
      }
    }

    /** `configure_pool`. */
    method ConfigurePool(p: PoolId, spec: PoolSpec, epoch: Epoch) returns (error: Option<Error>)
      modifies this`pools, this`groups
      ensures Outcome(old(Db()), Db(), error, Spec.ConfigurePool(old(Db()), p, spec, epoch))
    {
      if p in pools && (pools[p].epoch != epoch || pools[p].spec != spec) {
        var held := set i | 0 <= i < |attempts| && attempts[i].pool == p
          && (attempts[i].computeHeld || attempts[i].budgetHeld);
        if held != {} {
          var i :| i in held;
          assert Db().attempts[i].pool == p && (Db().attempts[i].computeHeld || Db().attempts[i].budgetHeld);
          return Some(Conflict);
        }
        assert forall i :: 0 <= i < |attempts| && attempts[i].pool == p && attempts[i].computeHeld ==> i in held;
        assert forall i :: 0 <= i < |attempts| && attempts[i].pool == p && attempts[i].budgetHeld ==> i in held;
      }
      var health := Healthy;
      if p in pools && pools[p].epoch == epoch {
        health := pools[p].health;
      }
      pools := pools[p := Pool(spec, epoch, health, spec.target)];
      if spec.group !in groups {
        groups := groups[spec.group := Healthy];
      }
      return None;
    }
  }
}
