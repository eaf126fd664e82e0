/** What each transaction of the ledger does, said of the rows before and after it, condition by condition. */
module LedgerEffects {
  // Nothing here speaks through the functions that compute the new rows: a reader can
  // hold each statement against the program without reading module Ledger.

  import opened Ledger
  import opened LedgerInvariant
  import opened LedgerRuns
  import opened LedgerSteps

  // ---------------------------------------------------------------- who may call

  /** A call with the wrong owner or fence, or for an attempt that is not active, is refused and changes nothing. */
  lemma StrangerRefused(db: Ledger, c: Command, now: Time)
    requires OwnerCall(c) && c.res.attempt < |db.attempts| && db.attempts[c.res.attempt].op in db.ops
    requires var a := db.attempts[c.res.attempt];
      a.owner != c.res.owner || a.number != c.res.fence || db.ops[a.op].active != Some(c.res.attempt)
    ensures Apply(db, c, now) == db
  {
  }

  /** The rows an owner's call reads: its attempt, operation and run. */
  predicate Owns(db: Ledger, res: Reservation, a: Attempt, op: Operation, root: Root) {
    && Owned(db, res) && a == db.attempts[res.attempt] && op == db.ops[a.op] && root == db.roots[a.root]
  }

  // ---------------------------------------------------------------- charging

  /** The end of a reservation: the attempt used `amount`, and its run and its pool bear the consequences. */
  predicate Charges(db: Ledger, next: Ledger, i: AttemptId, amount: nat) {
    && i < |db.attempts| && |next.attempts| == |db.attempts|
    && var a, b := db.attempts[i], next.attempts[i];
       && !b.budgetHeld && b.usage == Some(amount)
       && a.root in db.roots && a.root in next.roots && a.unit in db.roots[a.root].budgets
       && RootCharged(db.roots[a.root], next.roots[a.root], a, amount)
       && PoolCharged(db, next, a, amount)
  }

  /** The budget of the attempt's unit gives back the bound and takes the use; a run that overspends fails. */
  predicate RootCharged(x: Root, y: Root, a: Attempt, amount: nat)
    requires a.unit in x.budgets
  {
    && y.budgets.Keys == x.budgets.Keys && y.attempts == x.attempts && y.cancelRequested == x.cancelRequested
    && y.result == x.result && y.spec == x.spec
    && (forall u :: u in x.budgets && u != a.unit ==> y.budgets[u] == x.budgets[u])
    && y.budgets[a.unit].limit == x.budgets[a.unit].limit
    && y.budgets[a.unit].spent == x.budgets[a.unit].spent + amount
    && y.budgets[a.unit].reserved == x.budgets[a.unit].reserved - a.bound
    && (if x.state == Running && y.budgets[a.unit].spent > y.budgets[a.unit].limit
        then y.state == Failed && y.reason == UsageExceedsBudget
        else y.state == x.state && y.reason == x.reason)
  }

  /** An attempt that used more than its bound takes its pool out of service; no other pool changes. */
  predicate PoolCharged(db: Ledger, next: Ledger, a: Attempt, amount: nat) {
    && next.pools.Keys == db.pools.Keys
    && (forall p :: p in db.pools && !(p == a.pool && amount > a.bound) ==> next.pools[p] == db.pools[p])
    && (a.pool in db.pools && amount > a.bound ==>
          next.pools[a.pool].target == 0 && next.pools[a.pool].health == Degraded
          && next.pools[a.pool].spec == db.pools[a.pool].spec && next.pools[a.pool].epoch == db.pools[a.pool].epoch)
  }

  /** Nothing was held, so nothing is charged. */
  predicate Uncharged(db: Ledger, next: Ledger, i: AttemptId) {
    && i < |db.attempts| && |next.attempts| == |db.attempts|
    && next.attempts[i].usage == db.attempts[i].usage && next.attempts[i].budgetHeld == db.attempts[i].budgetHeld
    && next.roots == db.roots && next.pools == db.pools
  }

  /** The books after an attempt is over: what it held is charged once. */
  predicate Settled(db: Ledger, next: Ledger, i: AttemptId, amount: nat) {
    && i < |db.attempts|
    && if db.attempts[i].budgetHeld then Charges(db, next, i, amount) else Uncharged(db, next, i)
  }

  /** No other attempt, operation or run changes. */
  predicate Confined(db: Ledger, next: Ledger, i: AttemptId) {
    && i < |db.attempts| && |next.attempts| == |db.attempts|
    && next.ops.Keys == db.ops.Keys && next.roots.Keys == db.roots.Keys && next.bindings == db.bindings
    && (forall j :: 0 <= j < |db.attempts| && j != i ==> next.attempts[j] == db.attempts[j])
    && (forall o :: o in db.ops && o != db.attempts[i].op ==> next.ops[o] == db.ops[o])
    && (forall r :: r in db.roots && r != db.attempts[i].root ==> next.roots[r] == db.roots[r])
  }

  lemma WrittenConfined(db: Ledger, i: AttemptId, b: Attempt, op: Operation, root: Root, pools: map<PoolId, Pool>,
                        publish: bool)
    requires Linked(db, i) && SameAttempt(db.attempts[i], b)
    ensures var next := Written(db, i, b, op, root, pools, publish);
      Confined(db, next, i) && next.attempts[i] == b && next.ops[b.op] == op && next.roots[b.root] == root
      && next.pools == pools
  {
  }

  lemma SettledWritten(db: Ledger, i: AttemptId, b: Attempt, op: Operation, used: Option<nat>, publish: bool)
    requires Linked(db, i) && SameAttempt(db.attempts[i], b)
    requires var c := SettledAttempt(db.attempts[i], used); b.budgetHeld == c.budgetHeld && b.usage == c.usage
    ensures var a := db.attempts[i];
      var next := Written(db, i, b, op, SettledRoot(db.roots[a.root], a, used), SettledPools(db.pools, a, used),
                          publish);
      Confined(db, next, i) && Settled(db, next, i, if used.Some? then used.value else a.bound)
      && next.attempts[i] == b && a.op in next.ops && next.ops[a.op] == op
      && a.root in next.roots && next.roots[a.root] == SettledRoot(db.roots[a.root], a, used)
  {
    var a := db.attempts[i];
    WrittenConfined(db, i, b, op, SettledRoot(db.roots[a.root], a, used), SettledPools(db.pools, a, used), publish);
    if !a.budgetHeld {
      assert db.roots[a.root := db.roots[a.root]] == db.roots;
    }
  }

  // ---------------------------------------------------------------- sending

  predicate Ahead(deadline: Option<Time>, now: Time) {
    deadline.Some? ==> deadline.value > now
  }

  /** Everything `mark_send` asks of the rows, but the counters and the budget. */
  predicate MaySend(db: Ledger, a: Attempt, op: Operation, root: Root, now: Time) {
    && a.state == Reserved && op.state == Executing
    && (a.lease > now || (a.owner in db.owners && db.owners[a.owner].expires > now))
    && root.state == Running && !root.cancelRequested
    && root.spec.deadline > now && Ahead(op.spec.deadline, now) && a.created + op.spec.timeout > now
  }

  lemma MarkSendIff(db: Ledger, res: Reservation, a: Attempt, op: Operation, root: Root, now: Time)
    requires Owns(db, res, a, op, root)
    ensures var t := MarkSend(db, res, now);
      var b := root.budgets[a.unit];
      && (t.Commit? <==> MaySend(db, a, op, root, now) && op.attempts < op.spec.maxAttempts
                         && root.attempts < root.spec.maxAttempts && b.spent + b.reserved + a.bound <= b.limit)
      && (t == Abort(Conflict) <==> !MaySend(db, a, op, root, now))
  {
  }

  /** A send counts once for operation and run, reserves the bound, and claims compute and budget. */
  lemma MarkSendDoes(db: Ledger, res: Reservation, a: Attempt, op: Operation, root: Root, now: Time)
    requires Owns(db, res, a, op, root) && MarkSend(db, res, now).Commit?
    ensures var next := MarkSend(db, res, now).db;
      && Confined(db, next, res.attempt) && next.pools == db.pools
      && next.attempts[res.attempt] == a.(state := SendIntent, computeHeld := true, budgetHeld := true, sent := true)
      && next.ops[a.op] == op.(attempts := op.attempts + 1)
      && next.roots[a.root].attempts == root.attempts + 1 && next.roots[a.root].state == root.state
      && next.roots[a.root].budgets.Keys == root.budgets.Keys
      && (forall u :: u in root.budgets ==>
            next.roots[a.root].budgets[u]
            == root.budgets[u].(reserved := root.budgets[u].reserved + if u == a.unit then a.bound else 0))
  {
    var root' := root.(attempts := root.attempts + 1, budgets := root.budgets[a.unit :=
      root.budgets[a.unit].(reserved := root.budgets[a.unit].reserved + a.bound)]);
    WrittenConfined(db, res.attempt, SentAttempt(a), op.(attempts := op.attempts + 1), root', db.pools, false);
  }

  /**
   A heartbeat is refused only to strangers; it moves the lease exactly when no live
   owner vouches for the attempt.
   */
  lemma HeartbeatDoes(db: Ledger, res: Reservation, a: Attempt, op: Operation, root: Root, now: Time)
    requires Owns(db, res, a, op, root)
    ensures var t := Heartbeat(db, res, now);
      && t.Commit?
      && t.db == db.(attempts := t.db.attempts) && |t.db.attempts| == |db.attempts|
      && (forall j :: 0 <= j < |db.attempts| && j != res.attempt ==> t.db.attempts[j] == db.attempts[j])
      && t.db.attempts[res.attempt] ==
           if a.state in {Reserved, SendIntent, BackendFinished}
              && !(res.owner in db.owners && db.owners[res.owner].expires > now)
           then a.(lease := now + db.leaseSeconds) else a
  {
  }

  // ---------------------------------------------------------------- the end of a computation

  lemma ComputeFinishedDoes(db: Ledger, res: Reservation, a: Attempt, op: Operation, root: Root)
    requires Owns(db, res, a, op, root)
    ensures var t := ComputeFinished(db, res);
      && t.Commit? && t.db == db.(attempts := t.db.attempts) && |t.db.attempts| == |db.attempts|
      && (forall j :: 0 <= j < |db.attempts| && j != res.attempt ==> t.db.attempts[j] == db.attempts[j])
      && t.db.attempts[res.attempt] ==
           if a.state in {ResultCommitted, AttemptFailed, FailedNotSent} then a
           else a.(state := BackendFinished, computeHeld := false, finished := true)
  {
  }

  lemma MarkUnknownDoes(db: Ledger, res: Reservation, a: Attempt, op: Operation, root: Root, why: Why, now: Time)
    requires Owns(db, res, a, op, root)
    ensures var t := MarkUnknown(db, res, why, now);
      && t.Commit?
      && if a.state in {ResultCommitted, AttemptFailed, FailedNotSent} then t.db == db else
           && Confined(db, t.db, res.attempt) && t.db.roots == db.roots && t.db.pools == db.pools
           && var b, op' := t.db.attempts[res.attempt], t.db.ops[a.op];
              && b.state == Unknown && b.computeHeld == a.computeHeld && b.budgetHeld == a.budgetHeld
              && b.finished == a.finished && b.usage == a.usage
              && b.unknownAt == (if a.unknownAt.Some? then a.unknownAt else Some(now))
              && (if op.state in {OpSucceeded, OpFailed, OpCancelled} then op' == op
                  else if !Ahead(op.spec.deadline, now) then op' == op.(state := OpFailed, reason := OperationDeadline)
                  else op' == op.(state := Reconciling, reason := why))
  {
  }

  // ---------------------------------------------------------------- results

  /** Whether the operation still takes a result. */
  predicate Awaits(op: Operation, root: Root, now: Time) {
    && op.state !in {OpSucceeded, OpFailed, OpCancelled} && Ahead(op.spec.deadline, now)
    && root.state == Running && !root.cancelRequested
  }

  /** A commit needs the recorded end of its computation; a repeated one needs the same result. */
  lemma CommitResultIff(db: Ledger, res: Reservation, a: Attempt, op: Operation, root: Root, artifact: Blob,
                        usage: Option<nat>, now: Time)
    requires Owns(db, res, a, op, root)
    ensures var t := CommitResult(db, res, artifact, usage, now);
      && (t.Commit? <==> if a.state == ResultCommitted then op.result.None? || op.result.value == artifact
                         else a.state == BackendFinished && !a.computeHeld)
      && (t.Commit? && a.state == ResultCommitted ==> t.db == db)
  {
  }

  /** The operation gets exactly the committed artifact if it still takes one, and else ends without it. */
  lemma CommitResultDoes(db: Ledger, res: Reservation, a: Attempt, op: Operation, root: Root, artifact: Blob,
                         usage: Option<nat>, now: Time)
    requires Owns(db, res, a, op, root) && a.state == BackendFinished && !a.computeHeld
    ensures var t := CommitResult(db, res, artifact, usage, now);
      && t.Commit? && Confined(db, t.db, res.attempt)
      && t.db.attempts[res.attempt].state == ResultCommitted && !t.db.attempts[res.attempt].computeHeld
      && Settled(db, t.db, res.attempt, if usage.Some? then usage.value else a.bound)
      && var op' := t.db.ops[a.op];
         && op'.spec == op.spec && op'.attempts == op.attempts && op'.active == op.active
         && (if Awaits(op, root, now) then op'.state == OpSucceeded && op'.result == Some(artifact)
             else op'.result == op.result)
         && (op.state in {OpSucceeded, OpFailed, OpCancelled} ==> op' == op)
         && (op.state !in {OpSucceeded, OpFailed, OpCancelled} && !Awaits(op, root, now) ==>
               op'.state == OpFailed
               && op'.reason == if Ahead(op.spec.deadline, now) then RootTerminal else OperationDeadline)
  {
    var op' := CommitResult(db, res, artifact, usage, now).db.ops[a.op];
    SettledWritten(db, res.attempt, SettledAttempt(a, usage).(state := ResultCommitted), op', usage, true);
  }

  /** The path of a result: an attempt that was sent ends, commits, and its operation shows the artifact. */
  lemma FinishedThenCommitted(db: Ledger, res: Reservation, a: Attempt, op: Operation, root: Root, artifact: Blob,
                              usage: Option<nat>, now: Time, later: Time)
    requires Owns(db, res, a, op, root) && a.state in {SendIntent, Unknown} && Awaits(op, root, later)
    ensures var db1 := Apply(db, DoComputeFinished(res), now);
      var db2 := Apply(db1, DoCommitResult(res, artifact, usage), later);
      a.op in db2.ops && db2.ops[a.op].state == OpSucceeded && db2.ops[a.op].result == Some(artifact)
  {
    ComputeFinishedDoes(db, res, a, op, root);
    var db1 := ComputeFinished(db, res).db;
    assert Owns(db1, res, db1.attempts[res.attempt], op, root);
    CommittedShows(db1, res, db1.attempts[res.attempt], op, root, artifact, usage, later);
  }

  lemma CommittedShows(db: Ledger, res: Reservation, a: Attempt, op: Operation, root: Root, artifact: Blob,
                       usage: Option<nat>, now: Time)
    requires Owns(db, res, a, op, root) && a.state == BackendFinished && !a.computeHeld && Awaits(op, root, now)
    ensures var next := Apply(db, DoCommitResult(res, artifact, usage), now);
      a.op in next.ops && next.ops[a.op].state == OpSucceeded && next.ops[a.op].result == Some(artifact)
  {
    CommitResultDoes(db, res, a, op, root, artifact, usage, now);
  }

  // ---------------------------------------------------------------- failures

  /** What becomes of the operation: it is queued again only if asked for, and while it and its run are open. */
  predicate FailedFate(op: Operation, root: Root, op': Operation, why: Why, retry: bool, delay: nat, now: Time) {
    && op'.result == op.result && op'.attempts == op.attempts && op'.spec == op.spec && op'.active == op.active
    && if op.state in {OpSucceeded, OpFailed, OpCancelled} then op' == op
       else if root.cancelRequested then op'.state == OpCancelled && op'.reason == UserCancelled
       else if root.state != Running then op'.state == OpFailed && op'.reason == RootTerminal
       else if !Ahead(op.spec.deadline, now) then op'.state == OpFailed && op'.reason == OperationDeadline
       else if retry then op'.state == RetryWait && op'.retryAt == Some(now + delay) && op'.reason == why
       else op'.state == OpFailed && op'.reason == why
  }

  lemma FailedOpFate(op: Operation, root: Root, why: Why, retry: bool, delay: nat, now: Time)
    ensures FailedFate(op, root, FailedOp(op, root, why, retry, delay, now), why, retry, delay, now)
  {
  }

  lemma FailWrites(db: Ledger, res: Reservation, a: Attempt, op: Operation, root: Root, why: Why, notSent: bool,
                   retry: bool, delay: nat, now: Time)
    requires Owns(db, res, a, op, root) && !Final(a.state) && !(a.computeHeld && !notSent)
    ensures var used := if notSent then Some(0) else None;
      var op' := FailedOp(op, root, why, retry, delay, now);
      Fail(db, res, why, notSent, retry, delay, now)
      == Commit(Written(db, res.attempt, FailedAttempt(a, notSent), op', SettledRoot(root, a, used),
                        SettledPools(db.pools, a, used), Terminal(op'.state) && !Terminal(op.state)))
  {
  }

  /** What `fail` does to a live attempt when it is not refused. */
  ghost predicate FailsLive(db: Ledger, next: Ledger, i: AttemptId, a: Attempt, op: Operation, root: Root, why: Why,
                          notSent: bool, retry: bool, delay: nat, now: Time) {
    && Confined(db, next, i) && a.op in next.ops
    && next.attempts[i].state == (if notSent then FailedNotSent else AttemptFailed) && !next.attempts[i].computeHeld
    && Settled(db, next, i, if notSent then 0 else a.bound)
    && FailedFate(op, root, next.ops[a.op], why, retry, delay, now)
  }

  lemma FailLiveDoes(db: Ledger, res: Reservation, a: Attempt, op: Operation, root: Root, why: Why, notSent: bool,
                     retry: bool, delay: nat, now: Time)
    requires Owns(db, res, a, op, root) && !Final(a.state) && !(a.computeHeld && !notSent)
    ensures var t := Fail(db, res, why, notSent, retry, delay, now);
      t.Commit? && FailsLive(db, t.db, res.attempt, a, op, root, why, notSent, retry, delay, now)
  {
    var op' := FailedOp(op, root, why, retry, delay, now);
    FailWrites(db, res, a, op, root, why, notSent, retry, delay, now);
    FailedOpFate(op, root, why, retry, delay, now);
    SettledWritten(db, res.attempt, FailedAttempt(a, notSent), op', if notSent then Some(0) else None,
                   Terminal(op'.state) && !Terminal(op.state));
  }

  /** `fail` is refused while compute may run, and otherwise ends a live attempt. */
  lemma FailDoes(db: Ledger, res: Reservation, a: Attempt, op: Operation, root: Root, why: Why, notSent: bool,
                 retry: bool, delay: nat, now: Time)
    requires Owns(db, res, a, op, root)
    ensures var t := Fail(db, res, why, notSent, retry, delay, now);
      if a.state in {ResultCommitted, AttemptFailed, FailedNotSent} then t == Commit(db)
      else if a.computeHeld && !notSent then t == Abort(Conflict)
      else t.Commit? && FailsLive(db, t.db, res.attempt, a, op, root, why, notSent, retry, delay, now)
  {
    if !Final(a.state) && !(a.computeHeld && !notSent) {
      FailLiveDoes(db, res, a, op, root, why, notSent, retry, delay, now);
    }
  }

  // ---------------------------------------------------------------- settling without the owner

  /** Whether operation and run have room for another attempt, on the books after settlement. */
  predicate RoomForAnother(op: Operation, root: Root, a: Attempt, now: Time) {
    && root.state == Running && !root.cancelRequested && root.spec.deadline > now && Ahead(op.spec.deadline, now)
    && op.attempts < op.spec.maxAttempts && root.attempts < root.spec.maxAttempts
    && a.unit in root.budgets
    && root.budgets[a.unit].spent + root.budgets[a.unit].reserved + a.bound <= root.budgets[a.unit].limit
  }

  /** What becomes of the operation of an attempt that was settled without its owner. */
  predicate StoppedFate(op: Operation, root: Root, op': Operation, i: AttemptId, a: Attempt, recover: bool, error: Why,
                        now: Time) {
    && op'.result == op.result && op'.attempts == op.attempts && op'.spec == op.spec
    && if op.state in {OpSucceeded, OpFailed, OpCancelled} then op' == op
       else if !(recover && RoomForAnother(op, root, a, now)) then op'.state == OpFailed && op'.reason == error
       else if op.active == Some(i) then op'.state == RetryWait && op'.active == None && op'.retryAt == Some(now)
       else op' == op
  }

  lemma StoppedOpFate(op: Operation, root: Root, i: AttemptId, a: Attempt, recover: bool, error: Why, retryWhy: Why,
                      now: Time)
    ensures StoppedFate(op, root, StoppedOp(op, root, i, a, recover, error, retryWhy, now), i, a, recover, error, now)
  {
    RetryIsRoom(op, root, a, now);
    var op' := StoppedOp(op, root, i, a, recover, error, retryWhy, now);
    if Terminal(op.state) {
      assert op' == op;
    } else if !recover || !CanRetry(op, root, a, now) {
      assert op' == op.(state := OpFailed, reason := error);
    } else if op.active == Some(i) {
      assert op' == op.(state := RetryWait, active := None, reason := retryWhy, retryAt := Some(now));
    } else {
      assert op' == op;
    }
  }

  lemma RetryIsRoom(op: Operation, root: Root, a: Attempt, now: Time)
    ensures CanRetry(op, root, a, now) <==> RoomForAnother(op, root, a, now)
  {
  }

  lemma StoppedWrites(db: Ledger, i: AttemptId, recover: bool, error: Why, retryWhy: Why, now: Time)
    requires Linked(db, i)
    ensures var a := db.attempts[i];
      var root := SettledRoot(db.roots[a.root], a, StoppedUsage(a));
      var op' := StoppedOp(db.ops[a.op], root, i, a, recover, error, retryWhy, now);
      SettleStopped(db, i, recover, error, retryWhy, now)
      == Written(db, i, StoppedAttempt(a), op', root, SettledPools(db.pools, a, StoppedUsage(a)),
                 Terminal(op'.state) && !Terminal(db.ops[a.op].state))
  {
  }

  /**
   Settling an attempt without its owner charges it in full, unless it was never
   sent, and its operation is queued again at once if and only if recovery is asked
   for and there is room on the books after settlement; otherwise it fails.
   */
  lemma SettleStoppedDoes(db: Ledger, i: AttemptId, a: Attempt, op: Operation, recover: bool, error: Why, retryWhy: Why,
                          now: Time)
    requires Linked(db, i) && a == db.attempts[i] && op == db.ops[a.op]
    ensures var next := SettleStopped(db, i, recover, error, retryWhy, now);
      && Confined(db, next, i) && Settled(db, next, i, if a.state == Reserved then 0 else a.bound)
      && next.attempts[i].state == AttemptFailed && !next.attempts[i].computeHeld && next.attempts[i].finished
      && StoppedFate(op, next.roots[a.root], next.ops[a.op], i, a, recover, error, now)
  {
    var root := SettledRoot(db.roots[a.root], a, StoppedUsage(a));
    var op' := StoppedOp(op, root, i, a, recover, error, retryWhy, now);
    StoppedWrites(db, i, recover, error, retryWhy, now);
    StoppedOpFate(op, root, i, a, recover, error, retryWhy, now);
    SettledWritten(db, i, StoppedAttempt(a), op', StoppedUsage(a), Terminal(op'.state) && !Terminal(op.state));
  }
}
