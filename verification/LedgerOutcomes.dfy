/** What reservations, admissions, ends of runs and settlements come to, said of rows and of whole runs. */
module LedgerOutcomes {
  import opened Ledger
  import opened LedgerEffects
  import opened LedgerInvariant
  import opened LedgerRecovery
  import opened LedgerRuns
  import opened LedgerSteps

  predicate Open(op: Operation) {
    op.state !in {OpSucceeded, OpFailed, OpCancelled}
  }

  // ---------------------------------------------------------------- reservation

  /** The pool serves what the operation asks for. */
  predicate Serves(pool: PoolSpec, s: OpSpec) {
    && pool.model == s.model && pool.unit == s.unit && (s.profile == None || s.profile == Some(pool.profile))
    && s.bound <= pool.requestLimit && (forall c :: c in s.capabilities ==> c in pool.capabilities)
    && (s.unit == EmbeddingCharacters ==> s.texts <= pool.maxBatch && s.revision == pool.revision)
  }

  /** The operation waits for this pool, its retry time is past, and its run is open. */
  predicate Due(db: Ledger, p: PoolId, o: OpId, now: Time) {
    && o in db.ops && db.ops[o].spec.root in db.roots && p in db.pools
    && var op, root := db.ops[o], db.roots[db.ops[o].spec.root];
       && op.state in {Ready, RetryWait} && (op.retryAt.Some? ==> op.retryAt.value <= now)
       && root.state == Running && !root.cancelRequested && root.spec.deadline > now
       && Serves(db.pools[p].spec, op.spec)
  }

  /** And it has time, attempts and budget left. */
  predicate Reservable(db: Ledger, p: PoolId, o: OpId, now: Time) {
    && Due(db, p, o, now)
    && var op, root := db.ops[o], db.roots[db.ops[o].spec.root];
       && Ahead(op.spec.deadline, now) && op.spec.unit in root.budgets
       && op.attempts < op.spec.maxAttempts && root.attempts < root.spec.maxAttempts
       && var b := root.budgets[op.spec.unit];
          b.spent + op.spec.bound <= b.limit && b.spent + b.reserved + op.spec.bound <= b.limit
  }

  /** Why an operation that is due can never be reserved again, if so. */
  function Hopeless(op: Operation, root: Root, now: Time): Option<Why> {
    if op.spec.deadline.Some? && op.spec.deadline.value <= now then Some(OperationDeadline)
    else if op.spec.unit !in root.budgets then Some(BudgetMissing)
    else if op.attempts >= op.spec.maxAttempts then Some(MaxAttempts)
    else if root.attempts >= root.spec.maxAttempts then Some(RootAttempts)
    else if root.budgets[op.spec.unit].spent + op.spec.bound > root.budgets[op.spec.unit].limit
    then Some(BudgetExhausted)
    else None
  }

  /** What becomes of a candidate that is passed over: it ends if it can never be reserved, and waits otherwise. */
  predicate PassedFate(db: Ledger, next: Ledger, p: PoolId, o: OpId, now: Time) {
    && next == db.(ops := next.ops, completions := next.completions) && next.ops.Keys == db.ops.Keys
    && (forall q :: q in db.ops && q != o ==> next.ops[q] == db.ops[q])
    && if !Due(db, p, o, now) then next.ops == db.ops else
         var op, root := db.ops[o], db.roots[db.ops[o].spec.root];
         match Hopeless(op, root, now)
         case Some(why) => next.ops[o] == op.(state := OpFailed, reason := why)
         case None => next.ops[o] == op.(reason := BudgetWait)
  }

  /** The row of a new attempt: it holds nothing and was not sent. */
  predicate Fresh(db: Ledger, a: Attempt, p: PoolId, owner: OwnerId, o: OpId, now: Time) {
    && o in db.ops && p in db.pools
    && a.op == o && a.root == db.ops[o].spec.root && a.unit == db.ops[o].spec.unit && a.bound == db.ops[o].spec.bound
    && a.pool == p && a.epoch == db.pools[p].epoch && a.owner == owner
    && a.created == now && a.lease == now + db.leaseSeconds && a.state == Reserved
    && !a.computeHeld && !a.budgetHeld && !a.sent && !a.finished && a.unknownAt == None && a.usage == None
    && (forall i :: 0 <= i < |db.attempts| && db.attempts[i].op == o ==> db.attempts[i].number < a.number)
  }

  /** The reservation of `o`: a fresh attempt, which its operation names as the active one. */
  predicate Reserves(db: Ledger, next: Ledger, res: Reservation, p: PoolId, owner: OwnerId, o: OpId, now: Time) {
    && |next.attempts| == |db.attempts| + 1 && next.attempts[..|db.attempts|] == db.attempts
    && res.attempt == |db.attempts| && res.owner == owner && res.fence == next.attempts[|db.attempts|].number
    && Fresh(db, next.attempts[|db.attempts|], p, owner, o, now)
    && next.roots == db.roots && next.pools == db.pools && next.bindings == db.bindings
    && o in next.ops && next.ops[o].state == Executing && next.ops[o].active == Some(|db.attempts|)
    && next.ops[o].attempts == db.ops[o].attempts && next.ops[o].spec == db.ops[o].spec
    && next.ops[o].result == db.ops[o].result
  }

  /** A taken candidate is the only operation that changes. */
  predicate OnlyOp(db: Ledger, next: Ledger, o: OpId) {
    next.ops.Keys == db.ops.Keys && forall q :: q in db.ops && q != o ==> next.ops[q] == db.ops[q]
  }

  lemma {:induction false} NumbersBelow(s: seq<Attempt>, o: OpId)
    ensures forall i :: 0 <= i < |s| && s[i].op == o ==> s[i].number <= MaxNumber(s, o)
  {
    if s != [] {
      NumbersBelow(s[..|s| - 1], o);
    }
  }

  lemma EligibleIsDue(db: Ledger, p: PoolId, o: OpId, now: Time)
    requires p in db.pools
    ensures Eligible(db, db.pools[p], o, now) <==> Due(db, p, o, now)
  {
    if o in db.ops {
      var c, d := db.ops[o].spec.capabilities, db.pools[p].spec.capabilities;
      assert c <= d <==> forall x :: x in c ==> x in d;
    }
  }

  lemma SkipDoes(db: Ledger, p: PoolId, owner: OwnerId, o: OpId, now: Time)
    requires p in db.pools && Consider(db, p, owner, o, now).Skip?
    ensures !Reservable(db, p, o, now) && PassedFate(db, Consider(db, p, owner, o, now).db, p, o, now)
  {
    EligibleIsDue(db, p, o, now);
    if Due(db, p, o, now) {
      DueSkipped(db, p, owner, o, now);
    }
  }

  lemma DueSkipped(db: Ledger, p: PoolId, owner: OwnerId, o: OpId, now: Time)
    requires p in db.pools && Due(db, p, o, now) && Eligible(db, db.pools[p], o, now)
    requires Consider(db, p, owner, o, now).Skip?
    ensures !Reservable(db, p, o, now) && PassedFate(db, Consider(db, p, owner, o, now).db, p, o, now)
  {
  }

  lemma TakeDoes(db: Ledger, p: PoolId, owner: OwnerId, o: OpId, now: Time)
    requires p in db.pools && Consider(db, p, owner, o, now).Take?
    ensures Reservable(db, p, o, now)
    ensures var k := Consider(db, p, owner, o, now);
      Reserves(db, k.db, k.reservation, p, owner, o, now) && OnlyOp(db, k.db, o)
  {
    EligibleIsDue(db, p, o, now);
    NumbersBelow(db.attempts, o);
  }

  lemma ConsiderDoes(db: Ledger, p: PoolId, owner: OwnerId, o: OpId, now: Time)
    requires p in db.pools
    ensures match Consider(db, p, owner, o, now)
            case Take(next, res) =>
              Reservable(db, p, o, now) && Reserves(db, next, res, p, owner, o, now) && OnlyOp(db, next, o)
            case Skip(next) => !Reservable(db, p, o, now) && PassedFate(db, next, p, o, now)
  {
    if Consider(db, p, owner, o, now).Skip? {
      SkipDoes(db, p, owner, o, now);
    } else {
      TakeDoes(db, p, owner, o, now);
    }
  }

  /** A candidate that was passed over leaves everyone's chances as they were. */
  lemma PassedKeeps(db: Ledger, next: Ledger, p: PoolId, o: OpId, now: Time, q: OpId)
    requires PassedFate(db, next, p, o, now) && !Reservable(db, p, o, now)
    ensures Reservable(next, p, q, now) <==> Reservable(db, p, q, now)
  {
  }

  /** The first candidate that may be reserved. */
  predicate FirstReservable(db: Ledger, p: PoolId, candidates: seq<OpId>, now: Time, k: nat) {
    && k < |candidates| && Reservable(db, p, candidates[k], now)
    && forall j :: 0 <= j < k ==> !Reservable(db, p, candidates[j], now)
  }

  ghost predicate ScanDid(db: Ledger, next: Ledger, r: Option<Reservation>, p: PoolId, owner: OwnerId,
                          candidates: seq<OpId>, now: Time) {
    match r
    case None =>
      && (forall k :: 0 <= k < |candidates| ==> !Reservable(db, p, candidates[k], now))
      && next.attempts == db.attempts && next.roots == db.roots && next.pools == db.pools
    case Some(res) =>
      exists k: nat :: FirstReservable(db, p, candidates, now, k)
        && Reserves(db, next, res, p, owner, candidates[k], now)
  }

  lemma {:induction false} ScanDoes(db: Ledger, p: PoolId, owner: OwnerId, candidates: seq<OpId>, now: Time)
    requires p in db.pools
    ensures var (next, r) := Scan(db, p, owner, candidates, now); ScanDid(db, next, r, p, owner, candidates, now)
    decreases |candidates|
  {
    if candidates != [] {
      ConsiderDoes(db, p, owner, candidates[0], now);
      match Consider(db, p, owner, candidates[0], now)
      case Take(next, res) =>
        assert FirstReservable(db, p, candidates, now, 0);
      case Skip(mid) =>
        ScanDoes(mid, p, owner, candidates[1..], now);
        ScanStep(db, mid, p, owner, candidates, now);
    }
  }

  lemma ScanStep(db: Ledger, mid: Ledger, p: PoolId, owner: OwnerId, candidates: seq<OpId>, now: Time)
    requires candidates != [] && p in db.pools && p in mid.pools && !Reservable(db, p, candidates[0], now)
    requires PassedFate(db, mid, p, candidates[0], now)
    requires var (next, r) := Scan(mid, p, owner, candidates[1..], now);
      ScanDid(mid, next, r, p, owner, candidates[1..], now)
    ensures var (next, r) := Scan(mid, p, owner, candidates[1..], now); ScanDid(db, next, r, p, owner, candidates, now)
  {
    var (next, r) := Scan(mid, p, owner, candidates[1..], now);
    forall q ensures Reservable(mid, p, q, now) <==> Reservable(db, p, q, now) {
      PassedKeeps(db, mid, p, candidates[0], now, q);
    }
    match r
    case None =>
      forall k | 0 <= k < |candidates| ensures !Reservable(db, p, candidates[k], now) {
        assert k > 0 ==> candidates[k] == candidates[1..][k - 1];
      }
    case Some(res) =>
      var k: nat :| FirstReservable(mid, p, candidates[1..], now, k)
        && Reserves(mid, next, res, p, owner, candidates[1..][k], now);
      LaterReserves(db, mid, next, res, p, owner, candidates[0], candidates[k + 1], now);
      forall j | 0 <= j < k + 1 ensures !Reservable(db, p, candidates[j], now) {
        assert j > 0 ==> candidates[j] == candidates[1..][j - 1];
      }
      assert FirstReservable(db, p, candidates, now, k + 1);
  }

  lemma LaterReserves(db: Ledger, mid: Ledger, next: Ledger, res: Reservation, p: PoolId, owner: OwnerId, o: OpId,
                      q: OpId, now: Time)
    requires PassedFate(db, mid, p, o, now) && Reserves(mid, next, res, p, owner, q, now)
    ensures Reserves(db, next, res, p, owner, q, now)
  {
  }

  /**
   `reserve_next` serves only an open pool, and reserves the first candidate that may be
   reserved, if there is one.
   */
  lemma ReserveNextDoes(db: Ledger, p: PoolId, owner: OwnerId, candidates: seq<OpId>, now: Time)
    ensures var (next, r) := ReserveNext(db, p, owner, candidates, now);
      if p in db.pools && db.pools[p].health == Healthy && db.pools[p].target > 0
         && db.pools[p].spec.group in db.groups && db.groups[db.pools[p].spec.group] == Healthy
      then ScanDid(db, next, r, p, owner, candidates, now)
      else next == db && r == None
  {
    if p in db.pools {
      ScanDoes(db, p, owner, candidates, now);
    }
  }

  // ---------------------------------------------------------------- admission

  /** A run is admitted once, while there is room and time; a repeated admission must say the same. */
  lemma CreateRootDoes(db: Ledger, id: RootId, spec: RootSpec, now: Time)
    requires Tokens in spec.limits && (forall u :: u in spec.limits ==> spec.limits[u] > 0)
    requires spec.maxOperations > 0 && spec.maxPending > 0 && spec.maxAttempts > 0
    ensures var t := CreateRoot(db, id, spec, now);
      var running := set r | r in db.roots && db.roots[r].state == Running;
      if id in db.roots then t == if db.roots[id].spec == spec then Commit(db) else Abort(Conflict)
      else if |running| >= db.maxRoots then t == Abort(Denied(true))
      else if spec.deadline <= now then t == Abort(Denied(false))
      else
        && t.Commit? && t.db == db.(roots := t.db.roots) && t.db.roots.Keys == db.roots.Keys + {id}
        && (forall r :: r in db.roots ==> t.db.roots[r] == db.roots[r])
        && var root := t.db.roots[id];
           && root.spec == spec && root.state == Running && !root.cancelRequested && root.result == None
           && root.attempts == 0 && root.operations == 0 && root.budgets.Keys == spec.limits.Keys
           && forall u :: u in spec.limits ==> root.budgets[u] == Budget(spec.limits[u], 0, 0)
  {
  }

  /** A run without a token budget, or with a budget or quota of nothing, is invalid. */
  lemma InvalidRootRefused(db: Ledger, id: RootId, spec: RootSpec, now: Time)
    requires Tokens !in spec.limits || (exists u :: u in spec.limits && spec.limits[u] == 0)
      || spec.maxOperations == 0 || spec.maxPending == 0 || spec.maxAttempts == 0
    ensures CreateRoot(db, id, spec, now) == Abort(Invalid)
  {
  }

  /** An operation is admitted to an open run of its tenant, within the quotas of run and model. */
  predicate Admits(db: Ledger, spec: OpSpec, now: Time) {
    && spec.root in db.roots && db.roots[spec.root].spec.tenant == spec.tenant
    && var root := db.roots[spec.root];
       && root.state == Running && !root.cancelRequested && root.spec.deadline > now
       && spec.unit in root.spec.limits && root.operations < root.spec.maxOperations
       && (Ahead(spec.deadline, now) ==>
             && |set o | o in db.ops && db.ops[o].spec.root == spec.root && Open(db.ops[o])| < root.spec.maxPending
             && |set o | o in db.ops && db.ops[o].spec.model == spec.model && Open(db.ops[o])| < db.maxPending)
  }

  lemma OpenOpsAre(db: Ledger, spec: OpSpec)
    ensures OpenOps(db, spec.root) == set o | o in db.ops && db.ops[o].spec.root == spec.root && Open(db.ops[o])
    ensures OpenOpsOfModel(db, spec.model) == set o | o in db.ops && db.ops[o].spec.model == spec.model
      && Open(db.ops[o])
  {
  }

  lemma SubmitOperationDoes(db: Ledger, id: OpId, spec: OpSpec, now: Time)
    ensures var t := SubmitOperation(db, id, spec, now);
      if id in db.ops then t == if db.ops[id].spec == spec then Commit(db) else Abort(Conflict)
      else
        && (t.Commit? <==> Admits(db, spec, now))
        && (t.Commit? ==> Submitted(db, t.db, id, spec, now))
  {
    OpenOpsAre(db, spec);
  }

  /** The new operation is queued, or has failed already if its deadline is past. */
  predicate Submitted(db: Ledger, next: Ledger, id: OpId, spec: OpSpec, now: Time) {
    && next.attempts == db.attempts && next.bindings == db.bindings && next.pools == db.pools
    && next.ops.Keys == db.ops.Keys + {id} && (forall o :: o in db.ops && o != id ==> next.ops[o] == db.ops[o])
    && next.ops[id] == Operation(spec, if Ahead(spec.deadline, now) then Ready else OpFailed, None, 0, None, None,
                                 if Ahead(spec.deadline, now) then NoReason else OperationDeadline)
    && spec.root in db.roots
    && next.roots == db.roots[spec.root := db.roots[spec.root].(operations := db.roots[spec.root].operations + 1)]
  }

  /** A binding names its operation; one that exists keeps the operation it has. */
  lemma BindCompletionDoes(db: Ledger, o: OpId, tenant: TenantId, b: BindingId)
    ensures var t := BindCompletion(db, o, tenant, b);
      && (t.Commit? <==> o in db.ops && db.ops[o].spec.tenant == tenant)
      && (t.Commit? ==>
            && b in t.db.bindings && t.db.bindings[b] == (if b in db.bindings then db.bindings[b] else o)
            && t.db == db.(bindings := t.db.bindings, completions := t.db.completions))
  {
  }

  // ---------------------------------------------------------------- pools and owners

  /** A pool gets the row it is given, unless that changes it while something on it is held. */
  lemma ConfigurePoolDoes(db: Ledger, p: PoolId, spec: PoolSpec, epoch: Epoch)
    ensures var t := ConfigurePool(db, p, spec, epoch);
      var changed := p in db.pools && (db.pools[p].epoch != epoch || db.pools[p].spec != spec);
      var held := exists i :: 0 <= i < |db.attempts| && db.attempts[i].pool == p
                              && (db.attempts[i].computeHeld || db.attempts[i].budgetHeld);
      && (t.Commit? <==> !(changed && held))
      && (t.Commit? ==>
            && t.db == db.(pools := t.db.pools, groups := t.db.groups) && t.db.pools.Keys == db.pools.Keys + {p}
            && (forall q :: q in db.pools && q != p ==> t.db.pools[q] == db.pools[q])
            && t.db.pools[p].spec == spec && t.db.pools[p].epoch == epoch && t.db.pools[p].target == spec.target
            && spec.group in t.db.groups
            && t.db.groups[spec.group] == (if spec.group in db.groups then db.groups[spec.group] else Healthy)
            && (forall g :: g in db.groups ==> g in t.db.groups && t.db.groups[g] == db.groups[g])
            && t.db.pools[p].health ==
                 (if p in db.pools && db.pools[p].epoch == epoch then db.pools[p].health else Healthy))
  {
  }

  /** Health and target of one pool change, and nothing else. */
  lemma ControlPoolDoes(db: Ledger, p: PoolId, health: Health, target: nat)
    ensures var next := ControlPool(db, p, health, target);
      && next == db.(pools := next.pools) && next.pools.Keys == db.pools.Keys
      && forall q :: q in db.pools ==>
           next.pools[q] == if q == p then db.pools[q].(health := health, target := target) else db.pools[q]
  {
  }

  lemma RenewOwnerDoes(db: Ledger, owner: OwnerId, boot: nat, now: Time)
    ensures var t := RenewOwner(db, owner, boot, now);
      && (t.Commit? <==> owner in db.owners ==> db.owners[owner].boot == boot)
      && (t.Commit? ==> t.db == db.(owners := t.db.owners) && owner in t.db.owners
                        && t.db.owners[owner] == Owner(boot, now + db.leaseSeconds)
                        && forall w :: w in db.owners && w != owner
                                       ==> w in t.db.owners && t.db.owners[w] == db.owners[w])
  {
  }

  // ---------------------------------------------------------------- the end of a run

  /** Every operation of the run that was open is cancelled, and nothing else about operations changes. */
  predicate ClosedWith(db: Ledger, next: Ledger, id: RootId, why: Why) {
    && next.ops.Keys == db.ops.Keys && next.attempts == db.attempts && next.pools == db.pools
    && next.bindings == db.bindings
    && forall o :: o in db.ops ==>
         next.ops[o] == if db.ops[o].spec.root == id && Open(db.ops[o])
                        then db.ops[o].(state := OpCancelled, reason := why) else db.ops[o]
  }

  predicate OnlyRoot(db: Ledger, next: Ledger, id: RootId) {
    id in db.roots && next.roots.Keys == db.roots.Keys && forall r :: r in db.roots && r != id
                                                                      ==> next.roots[r] == db.roots[r]
  }

  lemma CloseDoes(db: Ledger, id: RootId, root: Root, why: Why)
    requires id in db.roots
    ensures var next := CloseRoot(db, id, root, why);
      OnlyRoot(db, next, id) && next.roots[id] == root && ClosedWith(db, next, id, why)
  {
  }

  /** Cancelling ends a run that has not ended, with all its open operations; ended runs stay as they are. */
  lemma CancelDoes(db: Ledger, id: RootId, tenant: TenantId)
    ensures var t := Cancel(db, id, tenant);
      && (t.Commit? <==> id in db.roots && db.roots[id].spec.tenant == tenant)
      && (t.Commit? && db.roots[id].state in {Succeeded, Partial, Failed} ==> t.db == db)
      && (t.Commit? && db.roots[id].state !in {Succeeded, Partial, Failed} ==>
            && OnlyRoot(db, t.db, id) && ClosedWith(db, t.db, id, UserCancelled) && id in t.db.cancels
            && t.db.roots[id] == db.roots[id].(state := Cancelled, cancelRequested := true, reason := UserCancelled))
  {
    if id in db.roots {
      CloseDoes(db, id, db.roots[id].(cancelRequested := true, state := Cancelled, reason := UserCancelled),
                UserCancelled);
    }
  }

  /** The clock passed the deadline of the run before its end was written. */
  predicate Late(root: Root, now: Time, at: Time) {
    root.spec.deadline <= now || root.spec.deadline <= at
  }

  /** An operation of the run is still open. */
  predicate Waits(db: Ledger, id: RootId) {
    exists o :: o in db.ops && db.ops[o].spec.root == id && Open(db.ops[o])
  }

  lemma WaitsIsOpen(db: Ledger, id: RootId)
    ensures Waits(db, id) <==> OpenOps(db, id) != {}
  {
    if Waits(db, id) {
      var o :| o in db.ops && db.ops[o].spec.root == id && Open(db.ops[o]);
      assert o in OpenOps(db, id);
    }
    if OpenOps(db, id) != {} {
      var o :| o in OpenOps(db, id);
      assert Open(db.ops[o]);
    }
  }

  lemma FinishRunningDoes(db: Ledger, id: RootId, state: RunState, result: Option<Blob>, why: Why, now: Time, at: Time)
    requires id in db.roots && state in {Succeeded, Partial, Failed}
    ensures var t := FinishRunning(db, id, state, result, why, now, at);
      && (t.Commit? <==> db.roots[id].spec.deadline <= now || state != Succeeded || OpenOps(db, id) == {})
      && (t.Commit? ==> RunEnds(db, t.db, id, state, result, why, now, at))
  {
    var root := db.roots[id];
    var late := Late(root, now, at);
    var root' := root.(state := if late then Failed else state, result := if late then None else result,
                       reason := if late then DeadlineExceeded else why);
    CloseDoes(db, id, root', if root'.reason == NoReason then RootFinished else root'.reason);
  }

  /** A running run ends as asked, or fails past its deadline; success needs all its operations ended. */
  lemma FinishRunDoes(db: Ledger, id: RootId, tenant: TenantId, state: RunState, result: Option<Blob>, why: Why,
                      now: Time, at: Time)
    requires state in {Succeeded, Partial, Failed} && (state == Partial ==> result.Some? && why != NoReason)
    requires id in db.roots && db.roots[id].spec.tenant == tenant && db.roots[id].state == Running
    ensures var t, root := FinishRun(db, id, tenant, state, result, why, now, at), db.roots[id];
      && (t.Commit? <==> !(state == Succeeded && root.spec.deadline > now && Waits(db, id)))
      && (t.Commit? ==> RunEnds(db, t.db, id, state, result, why, now, at))
  {
    WaitsIsOpen(db, id);
    FinishRunningDoes(db, id, state, result, why, now, at);
    FinishRunIsRunning(db, id, tenant, state, result, why, now, at);
  }

  lemma FinishRunIsRunning(db: Ledger, id: RootId, tenant: TenantId, state: RunState, result: Option<Blob>, why: Why,
                           now: Time, at: Time)
    requires state in {Succeeded, Partial, Failed} && (state == Partial ==> result.Some? && why != NoReason)
    requires id in db.roots && db.roots[id].spec.tenant == tenant && db.roots[id].state == Running
    ensures FinishRun(db, id, tenant, state, result, why, now, at) == FinishRunning(db, id, state, result, why, now, at)
  {
  }

  predicate RunEnds(db: Ledger, next: Ledger, id: RootId, state: RunState, result: Option<Blob>, why: Why, now: Time,
                    at: Time) {
    && OnlyRoot(db, next, id)
    && var root := db.roots[id];
       && next.roots[id] == (if Late(root, now, at)
                             then root.(state := Failed, result := None, reason := DeadlineExceeded)
                             else root.(state := state, result := result, reason := why))
       && if next.roots[id].state == Succeeded then next.ops == db.ops && next.attempts == db.attempts
          else ClosedWith(db, next, id, if next.roots[id].reason == NoReason then RootFinished
                          else next.roots[id].reason)
  }

  /** A run that has ended says no more than it said. */
  lemma FinishedAgain(db: Ledger, id: RootId, tenant: TenantId, state: RunState, result: Option<Blob>, why: Why,
                      now: Time, at: Time)
    requires state in {Succeeded, Partial, Failed} && (state == Partial ==> result.Some? && why != NoReason)
    requires id in db.roots && db.roots[id].spec.tenant == tenant && db.roots[id].state != Running
    ensures FinishRun(db, id, tenant, state, result, why, now, at)
      == if db.roots[id].state == state && db.roots[id].result != result then Abort(Conflict) else Commit(db)
  {
  }

  /** Cancelling is the one end without a result, a partial end needs result and reason, and the run must exist. */
  lemma FinishRunRefuses(db: Ledger, id: RootId, tenant: TenantId, state: RunState, result: Option<Blob>, why: Why,
                         now: Time, at: Time)
    ensures var t := FinishRun(db, id, tenant, state, result, why, now, at);
      && (state == Cancelled ==> t == if result.Some? then Abort(Invalid) else Cancel(db, id, tenant))
      && (state == Running || (state == Partial && (result.None? || why == NoReason)) ==> t == Abort(Invalid))
      && (state == Succeeded || state == Failed ==>
            (t == Abort(NotFound) <==> !(id in db.roots && db.roots[id].spec.tenant == tenant)))
  {
  }
}
