/**
 The durable ledger: its rows, and each transaction as a function from the
 ledger before to the ledger after.  A transaction that raises leaves the ledger
 as it was (`Abort`).  `now` is the clock reading of the transaction.

 A reference that a table should hold but does not is treated as the source's
 joins treat it: the row is not found.
 */
module Ledger {

  datatype Option<+T> = None | Some(value: T)

  type RootId = nat
  type OpId = nat
  type AttemptId = nat
  type PoolId = nat
  type GroupId = nat
  type OwnerId = nat
  type BindingId = nat
  type TenantId = nat
  type Epoch = nat
  type Blob = nat
  type Time = int

  datatype Unit = Tokens | SpeechCharacters | EmbeddingCharacters

  datatype RunState = Running | Succeeded | Partial | Failed | Cancelled

  datatype OpState = Ready | Executing | Reconciling | RetryWait | OpSucceeded | OpFailed | OpCancelled

  datatype AttemptState =
    Reserved | SendIntent | BackendFinished | Unknown | ResultCommitted | AttemptFailed | FailedNotSent

  /** Reasons recorded on operations and runs; `Code` is text given by a caller. */
  datatype Why =
    | NoReason | UserCancelled | RootTerminal | RootFinished | DeadlineExceeded | OperationDeadline
    | UsageExceedsBudget | MaxAttempts | RootAttempts | BudgetExhausted | BudgetMissing | BudgetWait
    | UnknownComputeOrResult | EngineStopped | EngineIdle | EngineRecovery | ResultLost
    | ImpossibleRequest | Code(text: nat)

  datatype Budget = Budget(limit: nat, reserved: int, spent: int)

  datatype RootSpec = RootSpec(tenant: TenantId, deadline: Time, limits: map<Unit, nat>,
                               maxOperations: nat, maxPending: nat, maxAttempts: nat)

  datatype Root = Root(spec: RootSpec, state: RunState, cancelRequested: bool, attempts: nat,
                       operations: nat, budgets: map<Unit, Budget>, result: Option<Blob>, reason: Why)

  datatype OpSpec = OpSpec(tenant: TenantId, root: RootId, unit: Unit, bound: nat, maxAttempts: nat,
                           timeout: nat, deadline: Option<Time>, model: nat, profile: Option<nat>,
                           capabilities: set<nat>, texts: nat, revision: nat)

  datatype Operation = Operation(spec: OpSpec, state: OpState, active: Option<AttemptId>, attempts: nat,
                                 retryAt: Option<Time>, result: Option<Blob>, reason: Why)

  /** `sent` is `send_intent_at IS NOT NULL`; `finished` is `backend_finished_at IS NOT NULL`. */
  datatype Attempt = Attempt(op: OpId, root: RootId, pool: PoolId, epoch: Epoch, number: nat, owner: OwnerId,
                             unit: Unit, bound: nat, created: Time, lease: Time, state: AttemptState,
                             computeHeld: bool, budgetHeld: bool, sent: bool, finished: bool,
                             unknownAt: Option<Time>, usage: Option<nat>)

  datatype Health = Healthy | Degraded | Unavailable

  datatype PoolSpec = PoolSpec(group: GroupId, unit: Unit, model: nat, profile: nat, revision: nat,
                               capabilities: set<nat>, requestLimit: nat, maxBatch: nat, target: nat)

  datatype Pool = Pool(spec: PoolSpec, epoch: Epoch, health: Health, target: nat)

  datatype Owner = Owner(boot: nat, expires: Time)

  /** Attempt identities are row positions: fresh for every insertion, never reused. */
  datatype Ledger = Ledger(maxRoots: nat, maxPending: nat, leaseSeconds: nat,
                           roots: map<RootId, Root>, ops: map<OpId, Operation>, attempts: seq<Attempt>,
                           pools: map<PoolId, Pool>, groups: map<GroupId, Health>, owners: map<OwnerId, Owner>,
                           bindings: map<BindingId, OpId>, completions: set<BindingId>, cancels: set<RootId>)

  datatype Reservation = Reservation(attempt: AttemptId, owner: OwnerId, fence: nat)

  datatype Error = Conflict | SendBudget(attemptsExhausted: bool) | Denied(retryable: bool) | NotFound | Invalid

  datatype Tx = Commit(db: Ledger) | Abort(error: Error)

  predicate Final(s: AttemptState) {
    s == ResultCommitted || s == AttemptFailed || s == FailedNotSent
  }

  predicate Terminal(s: OpState) {
    s == OpSucceeded || s == OpFailed || s == OpCancelled
  }

  predicate Queued(s: OpState) {
    s == Ready || s == RetryWait
  }

  // ---------------------------------------------------------------- rows and joins

  /** The join of an attempt with its operation, its root and the budget row of its unit. */
  predicate Linked(db: Ledger, i: AttemptId) {
    && i < |db.attempts|
    && db.attempts[i].op in db.ops
    && db.ops[db.attempts[i].op].spec.root == db.attempts[i].root
    && db.attempts[i].root in db.roots
    && db.attempts[i].unit in db.roots[db.attempts[i].root].budgets
  }

  /** The join of an operation with its root. */
  predicate Joined(db: Ledger, o: OpId) {
    o in db.ops && db.ops[o].spec.root in db.roots
  }

  predicate SameAttempt(a: Attempt, b: Attempt) {
    a.op == b.op && a.root == b.root && a.pool == b.pool && a.epoch == b.epoch && a.number == b.number
    && a.owner == b.owner && a.unit == b.unit && a.bound == b.bound && a.created == b.created
  }

  /** Write one attempt together with its operation and its root. */
  function Put(db: Ledger, i: AttemptId, a: Attempt, op: Operation, root: Root): Ledger
    requires i < |db.attempts|
  {
    db.(attempts := db.attempts[i := a], ops := db.ops[a.op := op], roots := db.roots[a.root := root])
  }

  /** `Put` with the pools it degrades and, if the operation ended, its completions. */
  function Written(db: Ledger, i: AttemptId, a: Attempt, op: Operation, root: Root, pools: map<PoolId, Pool>,
                   publish: bool): (r: Ledger)
    requires i < |db.attempts|
    ensures r.attempts == db.attempts[i := a]
  {
    var put := Put(db, i, a, op, root).(pools := pools);
    if publish then Publish(put, a.op) else put
  }

  function BindingsOf(bindings: map<BindingId, OpId>, os: set<OpId>): set<BindingId> {
    set b | b in bindings && bindings[b] in os
  }

  /** `_completion_events`. */
  function Publish(db: Ledger, o: OpId): Ledger {
    db.(completions := db.completions + BindingsOf(db.bindings, {o}))
  }

  /** The operation row after `_terminal`: an ended operation keeps its state. */
  function Ended(op: Operation, s: OpState, why: Why): Operation {
    if Terminal(op.state) then op else op.(state := s, reason := why)
  }

  /** `_terminal`: end one operation unless it already ended, and publish its completions. */
  function Terminate(db: Ledger, o: OpId, s: OpState, why: Why): Ledger
    requires o in db.ops
  {
    Publish(db.(ops := db.ops[o := Ended(db.ops[o], s, why)]), o)
  }

  /** `_terminal` on every operation of a set. */
  function TerminateAll(db: Ledger, os: set<OpId>, s: OpState, why: Why): Ledger {
    db.(ops := map o | o in db.ops :: if o in os then Ended(db.ops[o], s, why) else db.ops[o],
        completions := db.completions + BindingsOf(db.bindings, os))
  }

  predicate Expired(spec: OpSpec, now: Time) {
    spec.deadline.Some? && spec.deadline.value <= now
  }

  /** The usage `_settle` charges: the observed usage, or the whole bound when it is not known. */
  function Charge(a: Attempt, usage: Option<nat>): nat {
    if usage.None? then a.bound else usage.value
  }

  /** The attempt row after `_settle`. */
  function SettledAttempt(a: Attempt, usage: Option<nat>): Attempt {
    if a.budgetHeld then a.(budgetHeld := false, usage := Some(Charge(a, usage))) else a
  }

  /** The root row and budget row after `_settle`. */
  function SettledRoot(root: Root, a: Attempt, usage: Option<nat>): Root {
    if !a.budgetHeld || a.unit !in root.budgets then root else
      var b := root.budgets[a.unit];
      var budget := b.(reserved := b.reserved - a.bound, spent := b.spent + Charge(a, usage));
      var over := budget.spent > budget.limit && root.state == Running;
      root.(budgets := root.budgets[a.unit := budget],
            state := if over then Failed else root.state,
            reason := if over then UsageExceedsBudget else root.reason)
  }

  /** An engine that used more than was reserved for it takes no more work. */
  function SettledPools(pools: map<PoolId, Pool>, a: Attempt, usage: Option<nat>): map<PoolId, Pool> {
    if a.budgetHeld && Charge(a, usage) > a.bound && a.pool in pools
    then pools[a.pool := pools[a.pool].(target := 0, health := Degraded)] else pools
  }

  // ---------------------------------------------------------------- admission of roots and operations

  predicate ValidRootSpec(s: RootSpec) {
    Tokens in s.limits && (forall u :: u in s.limits ==> 0 < s.limits[u])
    && 0 < s.maxOperations && 0 < s.maxPending && 0 < s.maxAttempts
  }

  function NewRoot(s: RootSpec): Root {
    Root(s, Running, false, 0, 0, map u | u in s.limits :: Budget(s.limits[u], 0, 0), None, NoReason)
  }

  /** `_root`. */
  function CreateRoot(db: Ledger, id: RootId, spec: RootSpec, now: Time): Tx {
    if !ValidRootSpec(spec) then Abort(Invalid)
    else if id in db.roots then
      if db.roots[id].spec != spec then Abort(Conflict) else Commit(db)
    else if |set r | r in db.roots && db.roots[r].state == Running| >= db.maxRoots then Abort(Denied(true))
    else if spec.deadline <= now then Abort(Denied(false))
    else Commit(db.(roots := db.roots[id := NewRoot(spec)]))
  }

  /** The insertion that ends `submit_operation`; an operation past its deadline ends at once. */
  function AddOperation(db: Ledger, id: OpId, spec: OpSpec, now: Time): Ledger
    requires spec.root in db.roots
  {
    var root := db.roots[spec.root];
    var blank := Operation(spec, Ready, None, 0, None, None, NoReason);
    var op := if Expired(spec, now) then Ended(blank, OpFailed, OperationDeadline) else blank;
    var db1 := db.(roots := db.roots[spec.root := root.(operations := root.operations + 1)], ops := db.ops[id := op]);
    if Expired(spec, now) then Publish(db1, id) else db1
  }

  /** The operations of a run, or of a model, that have not ended. */
  function OpenOps(db: Ledger, root: RootId): set<OpId> {
    set o | o in db.ops && db.ops[o].spec.root == root && !Terminal(db.ops[o].state)
  }

  function OpenOpsOfModel(db: Ledger, model: nat): set<OpId> {
    set o | o in db.ops && db.ops[o].spec.model == model && !Terminal(db.ops[o].state)
  }

  /** `submit_operation`. */
  function SubmitOperation(db: Ledger, id: OpId, spec: OpSpec, now: Time): Tx {
    if id in db.ops then
      if db.ops[id].spec != spec then Abort(Conflict) else Commit(db)
    else if spec.root !in db.roots || db.roots[spec.root].spec.tenant != spec.tenant then Abort(NotFound)
    else
      var root := db.roots[spec.root];
      if root.cancelRequested || root.state != Running || root.spec.deadline <= now then Abort(Denied(false))
      else if spec.unit !in root.spec.limits then Abort(Denied(false))
      else if root.operations >= root.spec.maxOperations then Abort(Denied(false))
      else if !Expired(spec, now)
              && (|OpenOps(db, spec.root)| >= root.spec.maxPending || |OpenOpsOfModel(db, spec.model)| >= db.maxPending)
      then Abort(Denied(true))
      else Commit(AddOperation(db, id, spec, now))
  }

  // ---------------------------------------------------------------- reservation

  predicate Compatible(s: OpSpec, p: PoolSpec) {
    && s.model == p.model && s.unit == p.unit
    && (s.profile.None? || s.profile.value == p.profile)
    && s.bound <= p.requestLimit
    && (s.unit == EmbeddingCharacters ==> s.texts <= p.maxBatch && s.revision == p.revision)
    && s.capabilities <= p.capabilities
  }

  predicate RootOpen(root: Root, now: Time) {
    root.state == Running && !root.cancelRequested && root.spec.deadline > now
  }

  /** The candidate query of `reserve_next`, re-checked under the row locks. */
  predicate Eligible(db: Ledger, p: Pool, o: OpId, now: Time) {
    && Joined(db, o)
    && Queued(db.ops[o].state)
    && (db.ops[o].retryAt.None? || db.ops[o].retryAt.value <= now)
    && RootOpen(db.roots[db.ops[o].spec.root], now)
    && Compatible(db.ops[o].spec, p.spec)
  }

  function MaxNumber(s: seq<Attempt>, o: OpId): nat {
    if s == [] then 0 else
      var n := MaxNumber(s[..|s| - 1], o);
      var last := s[|s| - 1];
      if last.op == o && last.number > n then last.number else n
  }

  datatype Pick = Skip(db: Ledger) | Take(db: Ledger, reservation: Reservation)

  function NewAttempt(db: Ledger, pool: PoolId, owner: OwnerId, o: OpId, now: Time): Attempt
    requires o in db.ops && pool in db.pools
  {
    var s := db.ops[o].spec;
    Attempt(o, s.root, pool, db.pools[pool].epoch, MaxNumber(db.attempts, o) + 1, owner, s.unit, s.bound, now,
            now + db.leaseSeconds, Reserved, false, false, false, false, None, None)
  }

  /** The insertion that ends `reserve_next`: no budget, no compute, no send counted yet. */
  function Insert(db: Ledger, pool: PoolId, owner: OwnerId, o: OpId, now: Time): Ledger
    requires o in db.ops && pool in db.pools
  {
    db.(attempts := db.attempts + [NewAttempt(db, pool, owner, o, now)],
        ops := db.ops[o := db.ops[o].(state := Executing, active := Some(|db.attempts|), reason := NoReason)])
  }

  /** One turn of the candidate loop of `reserve_next`. */
  function Consider(db: Ledger, pool: PoolId, owner: OwnerId, o: OpId, now: Time): (k: Pick)
    requires pool in db.pools
    ensures k.db.pools == db.pools
  {
    if !Eligible(db, db.pools[pool], o, now) then Skip(db) else
      var op := db.ops[o];
      var root := db.roots[op.spec.root];
      if Expired(op.spec, now) then Skip(Terminate(db, o, OpFailed, OperationDeadline))
      else if op.spec.unit !in root.budgets then Skip(Terminate(db, o, OpFailed, BudgetMissing))
      else
        var budget := root.budgets[op.spec.unit];
        if op.attempts >= op.spec.maxAttempts then Skip(Terminate(db, o, OpFailed, MaxAttempts))
        else if root.attempts >= root.spec.maxAttempts then Skip(Terminate(db, o, OpFailed, RootAttempts))
        else if budget.spent + op.spec.bound > budget.limit then Skip(Terminate(db, o, OpFailed, BudgetExhausted))
        else if budget.spent + budget.reserved + op.spec.bound > budget.limit then
          Skip(db.(ops := db.ops[o := op.(reason := BudgetWait)]))
        else
          Take(Insert(db, pool, owner, o, now),
               Reservation(|db.attempts|, owner, MaxNumber(db.attempts, o) + 1))
  }

  function Scan(db: Ledger, pool: PoolId, owner: OwnerId, candidates: seq<OpId>, now: Time)
    : (Ledger, Option<Reservation>)
    requires pool in db.pools
    decreases |candidates|
  {
    if candidates == [] then (db, None) else
      match Consider(db, pool, owner, candidates[0], now)
      case Skip(next) => Scan(next, pool, owner, candidates[1..], now)
      case Take(next, reservation) => (next, Some(reservation))
  }

  /** `reserve_next`; `candidates` is the order in which the query returned its rows. */
  function ReserveNext(db: Ledger, pool: PoolId, owner: OwnerId, candidates: seq<OpId>, now: Time)
    : (Ledger, Option<Reservation>)
  {
    if pool !in db.pools || db.pools[pool].health != Healthy || db.pools[pool].target == 0
       || db.pools[pool].spec.group !in db.groups || db.groups[db.pools[pool].spec.group] != Healthy
    then (db, None)
    else Scan(db, pool, owner, candidates, now)
  }

  // ---------------------------------------------------------------- calls fenced by a reservation

  predicate OwnerAlive(db: Ledger, owner: OwnerId, now: Time) {
    owner in db.owners && db.owners[owner].expires > now
  }

  /** `_owned`. */
  predicate Owned(db: Ledger, res: Reservation) {
    && Linked(db, res.attempt)
    && db.attempts[res.attempt].owner == res.owner
    && db.attempts[res.attempt].number == res.fence
    && db.ops[db.attempts[res.attempt].op].active == Some(res.attempt)
  }

  function Min(x: Time, y: Time): Time { if x <= y then x else y }

  function AttemptDeadline(a: Attempt, spec: OpSpec, root: Root): Time {
    Min(root.spec.deadline,
        Min(if spec.deadline.Some? then spec.deadline.value else root.spec.deadline, a.created + spec.timeout))
  }

  function SentAttempt(a: Attempt): Attempt {
    a.(state := SendIntent, computeHeld := true, budgetHeld := true, sent := true)
  }

  /** The root row and budget row after `mark_send` charged an attempt. */
  function ChargedRoot(root: Root, a: Attempt): Root
    requires a.unit in root.budgets
  {
    var budget := root.budgets[a.unit];
    root.(attempts := root.attempts + 1,
          budgets := root.budgets[a.unit := budget.(reserved := budget.reserved + a.bound)])
  }

  /** `mark_send`: the first charge of an attempt, and the claim that it may compute. */
  function MarkSend(db: Ledger, res: Reservation, now: Time): Tx {
    if !Owned(db, res) then Abort(Conflict) else
      var a := db.attempts[res.attempt];
      var op := db.ops[a.op];
      var root := db.roots[a.root];
      if a.state != Reserved || op.state != Executing || (a.lease <= now && !OwnerAlive(db, res.owner, now))
         || root.cancelRequested || root.state != Running || AttemptDeadline(a, op.spec, root) <= now
      then Abort(Conflict)
      else if op.attempts >= op.spec.maxAttempts || root.attempts >= root.spec.maxAttempts
      then Abort(SendBudget(true))
      else
        var budget := root.budgets[a.unit];
        if budget.spent + budget.reserved + a.bound > budget.limit then Abort(SendBudget(false))
        else
          Commit(Written(db, res.attempt, SentAttempt(a), op.(attempts := op.attempts + 1), ChargedRoot(root, a),
                         db.pools, false))
  }

  /** `heartbeat`: it only ever moves the attempt's own lease. */
  function Heartbeat(db: Ledger, res: Reservation, now: Time): Tx {
    if !Owned(db, res) then Abort(Conflict) else
      var a := db.attempts[res.attempt];
      if Final(a.state) || a.state == Unknown || OwnerAlive(db, res.owner, now) then Commit(db)
      else Commit(db.(attempts := db.attempts[res.attempt := a.(lease := now + db.leaseSeconds)]))
  }

  /** `compute_finished`. */
  function ComputeFinished(db: Ledger, res: Reservation): Tx {
    if !Owned(db, res) then Abort(Conflict) else
      var a := db.attempts[res.attempt];
      if Final(a.state) then Commit(db)
      else Commit(db.(attempts := db.attempts[res.attempt :=
                                    a.(computeHeld := false, finished := true, state := BackendFinished)]))
  }

  /** The operation row after `commit_result` of a finished attempt, late or not. */
  function AnsweredOp(op: Operation, root: Root, artifact: Blob, now: Time): Operation {
    if Expired(op.spec, now) then Ended(op, OpFailed, OperationDeadline)
    else if Terminal(op.state) then op
    else if root.cancelRequested || root.state != Running then Ended(op, OpFailed, RootTerminal)
    else op.(state := OpSucceeded, result := Some(artifact), reason := NoReason)
  }

  /** `commit_result`. */
  function CommitResult(db: Ledger, res: Reservation, artifact: Blob, usage: Option<nat>, now: Time): Tx {
    if !Owned(db, res) then Abort(Conflict) else
      var a := db.attempts[res.attempt];
      var op := db.ops[a.op];
      var root := db.roots[a.root];
      if a.state == ResultCommitted then
        if op.result.Some? && op.result.value != artifact then Abort(Conflict) else Commit(db)
      else if a.computeHeld || a.state != BackendFinished then Abort(Conflict)
      else
        Commit(Written(db, res.attempt, SettledAttempt(a, usage).(state := ResultCommitted),
                       AnsweredOp(op, root, artifact, now), SettledRoot(root, a, usage),
                       SettledPools(db.pools, a, usage), true))
  }

  /** The operation row after `unknown`. */
  function UncertainOp(op: Operation, why: Why, now: Time): Operation {
    if Expired(op.spec, now) then Ended(op, OpFailed, OperationDeadline)
    else if Terminal(op.state) then op else op.(state := Reconciling, reason := why)
  }

  /** The attempt row after `unknown`. */
  function LostAttempt(a: Attempt, now: Time): Attempt {
    a.(state := Unknown, unknownAt := if a.unknownAt.Some? then a.unknownAt else Some(now))
  }

  /** `unknown`. */
  function MarkUnknown(db: Ledger, res: Reservation, why: Why, now: Time): Tx {
    if !Owned(db, res) then Abort(Conflict) else
      var a := db.attempts[res.attempt];
      var op := db.ops[a.op];
      if Final(a.state) then Commit(db) else
        Commit(Written(db, res.attempt, LostAttempt(a, now), UncertainOp(op, why, now), db.roots[a.root], db.pools,
                       Expired(op.spec, now)))
  }

  /** The operation row after `fail`. */
  function FailedOp(op: Operation, root: Root, why: Why, retry: bool, delay: nat, now: Time): Operation {
    if Terminal(op.state) then op
    else if root.cancelRequested then Ended(op, OpCancelled, UserCancelled)
    else if root.state != Running then Ended(op, OpFailed, RootTerminal)
    else if Expired(op.spec, now) then Ended(op, OpFailed, OperationDeadline)
    else if retry then op.(state := RetryWait, reason := why, retryAt := Some(now + delay))
    else Ended(op, OpFailed, why)
  }

  /** The attempt row after `fail`. */
  function FailedAttempt(a: Attempt, notSent: bool): Attempt {
    SettledAttempt(a, if notSent then Some(0) else None).(state := if notSent then FailedNotSent else AttemptFailed,
                                                          computeHeld := false)
  }

  /** `fail`. */
  function Fail(db: Ledger, res: Reservation, why: Why, notSent: bool, retry: bool, delay: nat, now: Time): Tx {
    if !Owned(db, res) then Abort(Conflict) else
      var a := db.attempts[res.attempt];
      var op := db.ops[a.op];
      var root := db.roots[a.root];
      if Final(a.state) then Commit(db)
      else if a.computeHeld && !notSent then Abort(Conflict)
      else
        var usage := if notSent then Some(0) else None;
        var op' := FailedOp(op, root, why, retry, delay, now);
        Commit(Written(db, res.attempt, FailedAttempt(a, notSent), op', SettledRoot(root, a, usage),
                       SettledPools(db.pools, a, usage), Terminal(op'.state) && !Terminal(op.state)))
  }

  // ---------------------------------------------------------------- ending a root

  /** End a run and every operation it still has open. */
  function CloseRoot(db: Ledger, id: RootId, root: Root, why: Why): Ledger {
    TerminateAll(db.(roots := db.roots[id := root]), OpenOps(db, id), OpCancelled, why)
  }

  /** `cancel`. */
  function Cancel(db: Ledger, id: RootId, tenant: TenantId): Tx {
    if id !in db.roots || db.roots[id].spec.tenant != tenant then Abort(NotFound) else
      var root := db.roots[id];
      if root.state in {Succeeded, Partial, Failed} then Commit(db) else
        var root' := root.(cancelRequested := true, state := Cancelled, reason := UserCancelled);
        Commit(CloseRoot(db, id, root', UserCancelled).(cancels := db.cancels + {id}))
  }

  /** `finish_run`; `now` is the reading of the first query and `at` that of the final update. */
  function FinishRun(db: Ledger, id: RootId, tenant: TenantId, state: RunState, result: Option<Blob>, why: Why,
                     now: Time, at: Time): Tx {
    if state == Cancelled then
      if result.Some? then Abort(Invalid) else Cancel(db, id, tenant)
    else if state == Running || (state == Partial && (result.None? || why == NoReason)) then Abort(Invalid)
    else if id !in db.roots || db.roots[id].spec.tenant != tenant then Abort(NotFound)
    else
      var root := db.roots[id];
      if root.state != Running then
        if root.state == state && root.result != result then Abort(Conflict) else Commit(db)
      else FinishRunning(db, id, state, result, why, now, at)
  }

  /** `finish_run` of a run that has not ended: past its deadline it can only fail. */
  function FinishRunning(db: Ledger, id: RootId, state: RunState, result: Option<Blob>, why: Why, now: Time,
                         at: Time): Tx
    requires id in db.roots
  {
    var root := db.roots[id];
    var expired := root.spec.deadline <= now;
    if !expired && state == Succeeded && OpenOps(db, id) != {} then Abort(Conflict) else
      var late := expired || root.spec.deadline <= at;
      var root' := root.(state := if late then Failed else state,
                         result := if late then None else result,
                         reason := if late then DeadlineExceeded else why);
      if root'.state == Succeeded then Commit(db.(roots := db.roots[id := root']))
      else Commit(CloseRoot(db, id, root', if root'.reason == NoReason then RootFinished else root'.reason))
  }

  /** `bind_completion`; binding identities are digests of task tokens. */
  function BindCompletion(db: Ledger, o: OpId, tenant: TenantId, b: BindingId): Tx {
    if o !in db.ops || db.ops[o].spec.tenant != tenant then Abort(NotFound) else
      var bound := if b in db.bindings then db else db.(bindings := db.bindings[b := o]);
      Commit(if Terminal(db.ops[o].state) then Publish(bound, o) else bound)
  }

  // ---------------------------------------------------------------- settling without the owner

  predicate LeaseLost(db: Ledger, a: Attempt, now: Time) {
    a.lease < now && !OwnerAlive(db, a.owner, now)
  }

  /** Whether a recovered operation may be inferred again; `root` is its row after settlement. */
  predicate CanRetry(op: Operation, root: Root, a: Attempt, now: Time) {
    && RootOpen(root, now)
    && !Expired(op.spec, now)
    && op.attempts < op.spec.maxAttempts
    && root.attempts < root.spec.maxAttempts
    && a.unit in root.budgets
    && root.budgets[a.unit].spent + root.budgets[a.unit].reserved + a.bound <= root.budgets[a.unit].limit
  }

  /** The usage charged when an attempt is settled without its owner: none if it was never sent. */
  function StoppedUsage(a: Attempt): Option<nat> {
    if a.state == Reserved then Some(0) else None
  }

  function StoppedAttempt(a: Attempt): Attempt {
    SettledAttempt(a, StoppedUsage(a)).(state := AttemptFailed, computeHeld := false, finished := true)
  }

  /** The operation row after `_settle_stopped_attempt`; `root` is its row after settlement. */
  function StoppedOp(op: Operation, root: Root, i: AttemptId, a: Attempt, recover: bool, error: Why, retryWhy: Why,
                     now: Time)
    : Operation
  {
    if Terminal(op.state) then op
    else if !recover || !CanRetry(op, root, a, now) then Ended(op, OpFailed, error)
    else if op.active == Some(i) then op.(state := RetryWait, active := None, reason := retryWhy, retryAt := Some(now))
    else op
  }

  /** Settle an attempt whose inference is over, leaving its operation in the row `op`. */
  function Stop(db: Ledger, i: AttemptId, op: Operation): (r: Ledger)
    requires Linked(db, i)
    ensures r.attempts == db.attempts[i := StoppedAttempt(db.attempts[i])]
  {
    var a := db.attempts[i];
    Written(db, i, StoppedAttempt(a), op, SettledRoot(db.roots[a.root], a, StoppedUsage(a)),
            SettledPools(db.pools, a, StoppedUsage(a)), Terminal(op.state) && !Terminal(db.ops[a.op].state))
  }

  /** `_settle_stopped_attempt`. */
  function SettleStopped(db: Ledger, i: AttemptId, recover: bool, error: Why, retryWhy: Why, now: Time): (r: Ledger)
    requires Linked(db, i)
    ensures r.attempts == db.attempts[i := StoppedAttempt(db.attempts[i])]
  {
    var a := db.attempts[i];
    Stop(db, i, StoppedOp(db.ops[a.op], SettledRoot(db.roots[a.root], a, StoppedUsage(a)), i, a, recover, error,
                          retryWhy, now))
  }

  /** The rows `reconcile_expired` takes from owners that are gone or from operations that ended. */
  predicate Abandoned(db: Ledger, i: AttemptId, now: Time) {
    && Linked(db, i)
    && var a := db.attempts[i];
       && (LeaseLost(db, a, now) || (a.state == Reserved && Terminal(db.ops[a.op].state)))
       && (a.state == Reserved || a.state == SendIntent || (a.state == BackendFinished && a.computeHeld))
  }

  /** The operation row after its attempt was taken back: queued again, or waiting for evidence. */
  function AbandonedOp(op: Operation, unsent: bool): Operation {
    if Terminal(op.state) then op
    else if unsent then op.(state := Ready, active := None)
    else op.(state := Reconciling, reason := UnknownComputeOrResult)
  }

  /** One turn of the attempt loop of `reconcile_expired`, for row `i` as the query saw it. */
  function ReconcileAttempt(db: Ledger, seen: Ledger, i: AttemptId, now: Time): (r: Ledger)
    ensures |r.attempts| == |db.attempts|
  {
    if !Abandoned(seen, i, now) || !Linked(db, i) then db else
      var a := db.attempts[i];
      var op := db.ops[a.op];
      var root := db.roots[a.root];
      if a.state == Reserved then
        Written(db, i, FailedAttempt(a, true), AbandonedOp(op, true), SettledRoot(root, a, Some(0)),
                SettledPools(db.pools, a, Some(0)), false)
      else
        Written(db, i, a.(state := Unknown, unknownAt := Some(now)), AbandonedOp(op, false), root, db.pools, false)
  }

  /** The attempt loop of `reconcile_expired`: rows below `k`, selected in the ledger `seen`. */
  function ReconcileAttempts(db: Ledger, seen: Ledger, k: nat, now: Time): (r: Ledger)
    requires k <= |seen.attempts| == |db.attempts|
    ensures |r.attempts| == |db.attempts|
  {
    if k == 0 then db else ReconcileAttempt(ReconcileAttempts(db, seen, k - 1, now), seen, k - 1, now)
  }

  /** A queued request that every pool of its model refuses for a lasting reason. */
  predicate Impossible(db: Ledger, s: OpSpec) {
    var like := set p | p in db.pools && db.pools[p].spec.model == s.model && db.pools[p].spec.unit == s.unit
                        && s.capabilities <= db.pools[p].spec.capabilities;
    var usable := set p | p in like && (s.profile.None? || db.pools[p].spec.profile == s.profile.value)
                          && (s.unit == EmbeddingCharacters ==> db.pools[p].spec.revision == s.revision);
    like != {} && forall p :: p in usable ==>
      db.pools[p].spec.requestLimit < s.bound || (s.unit == EmbeddingCharacters && db.pools[p].spec.maxBatch < s.texts)
  }

  function FailLateRoots(db: Ledger, now: Time): Ledger {
    db.(roots := map r | r in db.roots ::
          if db.roots[r].state == Running && db.roots[r].spec.deadline <= now
          then db.roots[r].(state := Failed, reason := DeadlineExceeded) else db.roots[r])
  }

  function ExpiredOps(db: Ledger, now: Time): set<OpId> {
    set o | o in db.ops && !Terminal(db.ops[o].state) && Expired(db.ops[o].spec, now)
  }

  function LateOps(db: Ledger, now: Time): set<OpId> {
    set o | o in db.ops && Joined(db, o) && Queued(db.ops[o].state)
      && db.roots[db.ops[o].spec.root].spec.deadline <= now
  }

  function ImpossibleOps(db: Ledger, page: set<OpId>): set<OpId> {
    set o | o in db.ops && o in page && Queued(db.ops[o].state) && Impossible(db, db.ops[o].spec)
  }

  function OrphanedOps(db: Ledger): set<OpId> {
    set o | o in db.ops && Joined(db, o) && !Terminal(db.ops[o].state) && db.roots[db.ops[o].spec.root].state != Running
  }

  /** The first transaction of `reconcile_expired`; `page` is the bounded page of queued operations it inspects. */
  function Reconcile(db: Ledger, page: set<OpId>, now: Time): Ledger {
    var db1 := TerminateAll(db, ExpiredOps(db, now), OpFailed, OperationDeadline);
    var db2 := ReconcileAttempts(db1, db1, |db1.attempts|, now);
    var db3 := TerminateAll(db2, LateOps(db2, now), OpFailed, DeadlineExceeded);
    var db4 := TerminateAll(db3, ImpossibleOps(db3, page), OpFailed, ImpossibleRequest);
    var db5 := FailLateRoots(db4, now);
    TerminateAll(db5, OrphanedOps(db5), OpCancelled, RootTerminal)
  }

  /** The rows `_settle_lost_results` may settle. */
  predicate Lost(db: Ledger, i: AttemptId, now: Time) {
    && Linked(db, i)
    && var a := db.attempts[i];
       && !a.computeHeld
       && ((a.state == BackendFinished && LeaseLost(db, a, now)) || (a.state == Unknown && a.finished))
  }

  /** One transaction of `_settle_lost_results`. */
  function SettleLost(db: Ledger, i: AttemptId, now: Time): Ledger {
    if Lost(db, i, now) then SettleStopped(db, i, true, ResultLost, ResultLost, now) else db
  }

  /** The evidence that ends attempts without their owner. */
  datatype Evidence =
    | EpochStopped(recover: bool)
    | IdleSince(since: Time, ids: set<AttemptId>)

  /** The rows that evidence about one epoch of one pool selects. */
  predicate Proven(a: Attempt, i: AttemptId, p: PoolId, epoch: Epoch, e: Evidence) {
    && a.pool == p && a.epoch == epoch
    && match e
       case EpochStopped(recover) =>
         (a.computeHeld || a.budgetHeld) && !(recover && a.state == BackendFinished && !a.computeHeld)
       case IdleSince(since, ids) =>
         a.computeHeld && a.state == Unknown && a.unknownAt.Some? && a.unknownAt.value < since && i in ids
  }

  /** One turn of the attempt loop, for row `i` as the query saw it. */
  function SettleProvenAt(db: Ledger, seen: Attempt, i: AttemptId, p: PoolId, epoch: Epoch, e: Evidence,
                          now: Time): (r: Ledger)
    ensures |r.attempts| == |db.attempts|
  {
    if !Proven(seen, i, p, epoch, e) || !Linked(db, i) then db else
      match e
      case EpochStopped(recover) => SettleStopped(db, i, recover, EngineStopped, EngineRecovery, now)
      case IdleSince(_, _) => SettleStopped(db, i, true, EngineIdle, EngineRecovery, now)
  }

  /** The attempt loop of `confirm_epoch_stopped` and `settle_idle_unknown`, rows below `k`. */
  function SettleProven(db: Ledger, seen: seq<Attempt>, p: PoolId, epoch: Epoch, e: Evidence, k: nat, now: Time)
    : (r: Ledger)
    requires k <= |seen| == |db.attempts|
    ensures |r.attempts| == |db.attempts|
  {
    if k == 0 then db
    else SettleProvenAt(SettleProven(db, seen, p, epoch, e, k - 1, now), seen[k - 1], k - 1, p, epoch, e, now)
  }

  /** `confirm_epoch_stopped`, its evidence already checked. */
  function ConfirmEpochStopped(db: Ledger, p: PoolId, epoch: Epoch, recover: bool, now: Time): Tx {
    if p !in db.pools || db.pools[p].epoch != epoch then Abort(Conflict)
    else if recover && db.pools[p].health == Healthy then Abort(Conflict)
    else
      var closed := db.(pools := db.pools[p := db.pools[p].(target := 0, health := Unavailable)]);
      Commit(SettleProven(closed, db.attempts, p, epoch, EpochStopped(recover), |db.attempts|, now))
  }

  /** `settle_idle_unknown`. */
  function SettleIdle(db: Ledger, p: PoolId, epoch: Epoch, since: Time, ids: set<AttemptId>, now: Time): Ledger {
    if p !in db.pools || db.pools[p].epoch != epoch then db
    else SettleProven(db, db.attempts, p, epoch, IdleSince(since, ids), |db.attempts|, now)
  }

  // ---------------------------------------------------------------- pools and owners

  /** `configure_pool`: a new epoch or profile is refused while the pool holds compute or budget. */
  function ConfigurePool(db: Ledger, p: PoolId, spec: PoolSpec, epoch: Epoch): Tx {
    var changed := p in db.pools && (db.pools[p].epoch != epoch || db.pools[p].spec != spec);
    if changed && (exists i :: 0 <= i < |db.attempts| && db.attempts[i].pool == p
                               && (db.attempts[i].computeHeld || db.attempts[i].budgetHeld))
    then Abort(Conflict)
    else
      var health := if p in db.pools && db.pools[p].epoch == epoch then db.pools[p].health else Healthy;
      Commit(db.(pools := db.pools[p := Pool(spec, epoch, health, spec.target)],
                 groups := if spec.group in db.groups then db.groups else db.groups[spec.group := Healthy]))
  }

  /** Any change of a pool's health or target by the watchdog, the operator or the controller. */
  function ControlPool(db: Ledger, p: PoolId, health: Health, target: nat): Ledger {
    if p in db.pools then db.(pools := db.pools[p := db.pools[p].(health := health, target := target)]) else db
  }

  /** `register_owner` and `heartbeat_owner`. */
  function RenewOwner(db: Ledger, owner: OwnerId, boot: nat, now: Time): Tx {
    if owner in db.owners && db.owners[owner].boot != boot then Abort(Conflict)
    else Commit(db.(owners := db.owners[owner := Owner(boot, now + db.leaseSeconds)]))
  }

  // ---------------------------------------------------------------- sizes of sets

  lemma SubsetSize<T>(x: set<T>, y: set<T>)
    requires x <= y
    ensures |x| <= |y|
  {
    assert y == x + (y - x);
  }
}
