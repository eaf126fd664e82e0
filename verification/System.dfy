/** Executors, the ledger, the scheduler of durable permits, its restarts and the engines, interleaved step by step. */
module System {
  // A step is what runs between two awaits or what one ledger transaction does;
  // a crash may come between any two steps.
  //
  // Assumed of the world, as guards of the steps that rely on it: an owner whose
  // lease is lost takes no further step, and driver, probe and stopped-epoch
  // evidence is true and stays true.

  import opened Ledger
  import opened LedgerInvariant
  import opened LedgerSteps
  import opened LedgerRuns
  import opened LedgerEpochs
  import opened LedgerRecovery

  /** Why an executor ends its attempt. */
  datatype Cause =
    | Unsent      // the request never reached an engine
    | Rejected    // the engine refused or failed it, and is done with it
    | Completed   // the engine answered
    | Uncertain   // the response was lost

  /** Where `Executor.tick` stands with its reservation. */
  datatype Exec = Waiting | Permitted | Marked | Cleared | Sent | Ending(cause: Cause) | Gone

  /** `dropping` and `releasing` are removals decided on an earlier read of the ledger. */
  datatype Sched =
    | Down
    | Booting(held: set<AttemptId>)
    | Up(permits: set<AttemptId>, dropping: set<AttemptId>, releasing: set<AttemptId>)

  /** `engine` is what the engines compute now, `dead` the engine epochs that have stopped for good. */
  datatype Sys = Sys(db: Ledger, execs: seq<Exec>, engine: set<AttemptId>, dead: set<(PoolId, Epoch)>, sched: Sched)

  datatype Step =
    | Background(c: Command, now: Time)
    | Reserve(pool: PoolId, owner: OwnerId, candidates: seq<OpId>, now: Time)
    | Renew(i: AttemptId, now: Time)
    | Grant(i: AttemptId)
    | Acquire(i: AttemptId)
    | GiveUp(i: AttemptId)
    | Mark(i: AttemptId, acknowledged: bool, now: Time)
    | Check(i: AttemptId)
    | Send(i: AttemptId)
    | Outcome(i: AttemptId, cause: Cause)
    | EngineEnds(i: AttemptId)
    | EpochDies(pool: PoolId, epoch: Epoch)
    | WriteEnd(i: AttemptId, c: Command, now: Time)
    | Crash(i: AttemptId)
    | SchedulerDies
    | BootRead
    | BootInstall
    | ReleaseRead(i: AttemptId)
    | ReleaseApply(i: AttemptId)
    | ReconcileRead
    | ReconcileApply

  function ReservationOf(db: Ledger, i: AttemptId): Reservation
    requires i < |db.attempts|
  {
    Reservation(i, db.attempts[i].owner, db.attempts[i].number)
  }

  /** The ledger calls an executor makes to end its attempt. */
  predicate Ends(cause: Cause, c: Command, res: Reservation) {
    match cause
    case Unsent => (c.DoComputeFinished? || (c.DoFail? && c.notSent)) && c.res == res
    case Rejected => (c.DoComputeFinished? || (c.DoFail? && !c.notSent)) && c.res == res
    case Completed => (c.DoComputeFinished? || c.DoCommitResult? || c.DoMarkUnknown?) && c.res == res
    case Uncertain => c.DoMarkUnknown? && c.res == res
  }

  /** The attempts a scheduler restart hydrates. */
  function Hydrated(db: Ledger): set<AttemptId> {
    set i: nat | i < |db.attempts| && db.attempts[i].computeHeld
      && (db.attempts[i].state == SendIntent || db.attempts[i].state == Unknown)
  }

  /** What the world promises before a transaction that relies on it. */
  predicate Truthful(s: Sys, c: Command, now: Time) {
    match c
    case DoReconcile(_) => Stopped(s, now)
    case DoConfirmStopped(p, epoch, _) => (p, epoch) in s.dead
    case DoSettleIdle(_, _, _, ids) => ids !! s.engine
    case _ => true
  }

  predicate InEpoch(a: Attempt, epochs: set<(PoolId, Epoch)>) {
    (a.pool, a.epoch) in epochs
  }

  /** Owners whose lease is lost have stopped. */
  predicate Stopped(s: Sys, now: Time) {
    forall i :: 0 <= i < |s.db.attempts| && LeaseLost(s.db, s.db.attempts[i], now) ==> i < |s.execs| && s.execs[i].Gone?
  }

  /** The executor will not send any more. */
  predicate Over(e: Exec) {
    e.Ending? || e.Gone?
  }

  predicate At(s: Sys, i: AttemptId, e: Exec) {
    i < |s.execs| == |s.db.attempts| && s.execs[i] == e
  }

  predicate Enabled(s: Sys, step: Step) {
    match step
    case Background(c, now) => !OwnerCall(c) && !c.DoReserve? && Truthful(s, c, now)
    case Reserve(_, _, _, _) => true
    case Renew(i, _) => i < |s.execs| == |s.db.attempts| && s.execs[i] != Gone
    case Grant(i) => s.sched.Up? && i < |s.execs|
    case Acquire(i) => At(s, i, Waiting) && s.sched.Up? && i in s.sched.permits
    case GiveUp(i) => At(s, i, Waiting) || At(s, i, Permitted) || At(s, i, Marked)
    case Mark(i, _, _) => At(s, i, Permitted)
    case Check(i) => At(s, i, Marked)
    case Send(i) => At(s, i, Cleared)
    case Outcome(i, cause) => (At(s, i, Sent) || At(s, i, Cleared)) && (cause != Uncertain ==> i !in s.engine)
    case EngineEnds(i) => i in s.engine
    case EpochDies(_, _) => true
    case WriteEnd(i, c, _) =>
      i < |s.execs| == |s.db.attempts| && s.execs[i].Ending? && Ends(s.execs[i].cause, c, ReservationOf(s.db, i))
    case Crash(i) => i < |s.execs|
    case SchedulerDies => true
    case BootRead => s.sched.Down?
    case BootInstall => s.sched.Booting?
    case ReleaseRead(i) =>
      s.sched.Up? && i < |s.execs| == |s.db.attempts| && Over(s.execs[i]) && !s.db.attempts[i].computeHeld
    case ReleaseApply(i) => s.sched.Up? && i in s.sched.releasing
    case ReconcileRead => s.sched.Up?
    case ReconcileApply => s.sched.Up?
  }

  function Moved(s: Sys, i: AttemptId, e: Exec): Sys
    requires i < |s.execs|
  {
    s.(execs := s.execs[i := e])
  }

  function Do(s: Sys, step: Step): Sys
    requires Enabled(s, step)
  {
    match step
    case Background(c, now) => s.(db := Apply(s.db, c, now))
    case Reserve(p, owner, candidates, now) =>
      var r := ReserveNext(s.db, p, owner, candidates, now);
      s.(db := r.0, execs := if r.1.Some? then s.execs + [Waiting] else s.execs)
    case Renew(i, now) => s.(db := Apply(s.db, DoHeartbeat(ReservationOf(s.db, i)), now))
    case Grant(i) => s.(sched := s.sched.(permits := s.sched.permits + {i}))
    case Acquire(i) => Moved(s, i, Permitted)
    case GiveUp(i) => Moved(s, i, Ending(Unsent))
    case Mark(i, acknowledged, now) =>
      var t := MarkSend(s.db, ReservationOf(s.db, i), now);
      Moved(s.(db := LedgerRuns.After(s.db, t)), i, if t.Commit? && acknowledged then Marked else Ending(Unsent))
    case Check(i) => Moved(s, i, if s.sched.Up? && i in s.sched.permits then Cleared else Ending(Unsent))
    case Send(i) => Moved(if InEpoch(s.db.attempts[i], s.dead) then s else s.(engine := s.engine + {i}), i, Sent)
    case Outcome(i, cause) => Moved(s, i, Ending(cause))
    case EngineEnds(i) => s.(engine := s.engine - {i})
    case EpochDies(p, epoch) =>
      s.(dead := s.dead + {(p, epoch)},
         engine := set i | i in s.engine && !(i < |s.db.attempts| && InEpoch(s.db.attempts[i], {(p, epoch)})))
    case WriteEnd(_, c, now) => s.(db := Apply(s.db, c, now))
    case Crash(i) => Moved(s, i, Gone)
    case SchedulerDies => s.(sched := Down)
    case BootRead => s.(sched := Booting(Hydrated(s.db)))
    case BootInstall => s.(sched := Up(s.sched.held, {}, {}))
    case ReleaseRead(i) => s.(sched := s.sched.(releasing := s.sched.releasing + {i}))
    case ReleaseApply(i) =>
      s.(sched := s.sched.(permits := s.sched.permits - {i}, releasing := s.sched.releasing - {i}))
    case ReconcileRead =>
      s.(sched := s.sched.(dropping := set i | i in s.sched.permits
                           && !(i < |s.db.attempts| && Claims(s.db.attempts[i]))))
    case ReconcileApply => s.(sched := s.sched.(permits := s.sched.permits - s.sched.dropping, dropping := {}))
  }

  // ---------------------------------------------------------------- the invariant

  /** What an attempt's row, its executor and the engine agree on; `dead` says that its epoch has stopped. */
  predicate RowOk(a: Attempt, e: Exec, computing: bool, dead: bool) {
    && (computing ==> !dead && a.computeHeld && (e.Sent? || e == Ending(Uncertain) || e.Gone?))
    && (e.Waiting? || e.Permitted? ==> a.state == Reserved || Final(a.state))
    && (e.Marked? || e.Cleared? ==> a.state == SendIntent || (dead && Final(a.state)))
    && (e.Sent? ==> a.state == SendIntent || Final(a.state))
    && (a.state == Unknown ==> Over(e))
    && (a.state == Reserved ==> e.Waiting? || e.Permitted? || e == Ending(Unsent) || e.Gone?)
  }

  /** The engine may be computing the attempt now, or after the executor's next step. */
  predicate Exposed(s: Sys, i: AttemptId) {
    i in s.engine || (i < |s.execs| == |s.db.attempts| && s.execs[i].Cleared? && !InEpoch(s.db.attempts[i], s.dead))
  }

  predicate PermitOk(s: Sys, i: AttemptId)
    requires i < |s.execs| == |s.db.attempts|
  {
    match s.sched
    case Down => true
    case Booting(held) => Exposed(s, i) ==> i in held
    case Up(permits, dropping, releasing) =>
      && (Exposed(s, i) ==> i in permits)
      && (i in dropping ==> !Claims(s.db.attempts[i]))
      && (i in releasing ==> !s.db.attempts[i].computeHeld && Over(s.execs[i]))
  }

  predicate SysRow(s: Sys, i: AttemptId) {
    && i < |s.execs| == |s.db.attempts|
    && RowOk(s.db.attempts[i], s.execs[i], i in s.engine, InEpoch(s.db.attempts[i], s.dead))
    && PermitOk(s, i)
  }

  /** Every attempt the scheduler holds anything for. */
  function Known(sched: Sched): set<AttemptId> {
    match sched
    case Down => {}
    case Booting(held) => held
    case Up(permits, dropping, releasing) => permits + dropping + releasing
  }

  ghost predicate SysInv(s: Sys) {
    && Inv(s.db)
    && |s.execs| == |s.db.attempts|
    && (forall i :: i in s.engine ==> i < |s.execs|)
    && (forall i :: i in Known(s.sched) ==> i < |s.execs|)
    && (forall i {:trigger SysRow(s, i)} :: 0 <= i < |s.execs| ==> SysRow(s, i))
  }

  // ---------------------------------------------------------------- what transactions do to attempt rows

  /** How a settlement may change the row of an attempt whose executor is `e`. */
  predicate Settles(a: Attempt, b: Attempt, e: Exec, computing: bool, dead: bool) {
    || b == a
    || (!a.computeHeld && !b.computeHeld && Final(b.state))
    || (e.Gone? && a.state == SendIntent && b.state == Unknown && b.computeHeld)
    || (!computing && a.state != Reserved && Final(b.state) && (dead || Over(e)))
  }

  lemma ReconcileSettles(s: Sys, page: set<OpId>, now: Time, i: AttemptId)
    requires SysInv(s) && Stopped(s, now) && i < |s.execs|
    ensures var next := Reconcile(s.db, page, now);
      |next.attempts| == |s.db.attempts|
        && Settles(s.db.attempts[i], next.attempts[i], s.execs[i], i in s.engine, InEpoch(s.db.attempts[i], s.dead))
  {
    var db := s.db;
    assert AttemptInv(db, i);
    var db1 := TerminateAll(db, ExpiredOps(db, now), OpFailed, OperationDeadline);
    TerminateAllSound(db, ExpiredOps(db, now), OpFailed, OperationDeadline);
    assert AttemptInv(db1, i) && db1.attempts == db.attempts && db1.owners == db.owners;
    if Abandoned(db1, i, now) {
      ReconciledRow(db1, |db1.attempts|, i, now);
      ReconcileAttemptsSound(db1, |db1.attempts|, now);
      assert AttemptInv(ReconcileAttempts(db1, db1, |db1.attempts|, now), i);
    } else {
      UnabandonedRow(db1, |db1.attempts|, i, now);
    }
  }

  lemma LostSettles(s: Sys, k: AttemptId, now: Time, i: AttemptId)
    requires SysInv(s) && i < |s.execs|
    ensures var next := SettleLost(s.db, k, now);
      |next.attempts| == |s.db.attempts|
        && Settles(s.db.attempts[i], next.attempts[i], s.execs[i], i in s.engine, InEpoch(s.db.attempts[i], s.dead))
  {
  }

  lemma EvidenceSettlesRow(db: Ledger, p: PoolId, epoch: Epoch, e: Evidence, now: Time, i: AttemptId)
    requires Inv(db) && i < |db.attempts|
    ensures var b := SettleProven(db, db.attempts, p, epoch, e, |db.attempts|, now).attempts[i];
      if Proven(db.attempts[i], i, p, epoch, e) then b == StoppedAttempt(db.attempts[i]) else b == db.attempts[i]
  {
    if Proven(db.attempts[i], i, p, epoch, e) {
      ProvenRow(db, p, epoch, e, |db.attempts|, i, now);
    } else {
      UnprovenRow(db, p, epoch, e, |db.attempts|, i, now);
    }
  }

  lemma BackgroundSettles(s: Sys, c: Command, now: Time, i: AttemptId)
    requires SysInv(s) && !OwnerCall(c) && !c.DoReserve? && Truthful(s, c, now) && i < |s.execs|
    ensures |Apply(s.db, c, now).attempts| == |s.db.attempts|
    ensures Settles(s.db.attempts[i], Apply(s.db, c, now).attempts[i], s.execs[i], i in s.engine,
                    InEpoch(s.db.attempts[i], s.dead))
  {
    assert SysRow(s, i) && AttemptInv(s.db, i);
    match c {
      case DoReconcile(page) => ReconcileSettles(s, page, now, i);
      case DoSettleLost(k) => LostSettles(s, k, now, i);
      case DoConfirmStopped(p, epoch, recover) =>
        if ConfirmEpochStopped(s.db, p, epoch, recover, now).Commit? {
          var closed := s.db.(pools := s.db.pools[p := s.db.pools[p].(target := 0, health := Unavailable)]);
          EvolvesRefl(s.db);
          ElsewhereSound(s.db, s.db, closed);
          EvidenceSettlesRow(closed, p, epoch, EpochStopped(recover), now, i);
        }
      case DoSettleIdle(p, epoch, since, ids) =>
        if p in s.db.pools && s.db.pools[p].epoch == epoch {
          EvidenceSettlesRow(s.db, p, epoch, IdleSince(since, ids), now, i);
        }
      case _ => SameAttempts(s.db, c, now);
    }
  }

  // ---------------------------------------------------------------- every step keeps the invariant

  /** A step that changes row `i` only. */
  lemma RowStep(s: Sys, t: Sys, i: AttemptId)
    requires SysInv(s) && Inv(t.db) && i < |s.execs|
    requires |t.execs| == |s.execs| && |t.db.attempts| == |s.db.attempts|
    requires forall j :: 0 <= j < |s.execs| && j != i
                         ==> t.execs[j] == s.execs[j] && t.db.attempts[j] == s.db.attempts[j]
    requires forall j :: j != i ==> (j in t.engine <==> j in s.engine)
    requires t.sched == s.sched && t.dead == s.dead && SysRow(t, i)
    ensures SysInv(t)
  {
    forall j | 0 <= j < |t.execs| ensures SysRow(t, j) {
      assert SysRow(s, j);
    }
  }

  lemma BackgroundRow(s: Sys, t: Sys, i: AttemptId)
    requires SysRow(s, i) && AttemptOk(s.db.attempts[i]) && t == s.(db := t.db) && |t.db.attempts| == |s.db.attempts|
    requires Settles(s.db.attempts[i], t.db.attempts[i], s.execs[i], i in s.engine, InEpoch(s.db.attempts[i], s.dead))
    requires AttemptEvolves(s.db.attempts[i], t.db.attempts[i]) && AttemptOk(t.db.attempts[i])
    ensures SysRow(t, i)
  {
  }

  lemma BackgroundInv(s: Sys, t: Sys, next: Ledger, c: Command, now: Time)
    requires SysInv(s) && !OwnerCall(c) && !c.DoReserve? && Truthful(s, c, now)
    requires next == Apply(s.db, c, now) && t == s.(db := next)
    ensures SysInv(t)
  {
    ApplySound(s.db, c, now);
    BackgroundSettled(s, next, c, now);
    SettledInv(s, t, next);
  }

  lemma BackgroundSettled(s: Sys, next: Ledger, c: Command, now: Time)
    requires SysInv(s) && !OwnerCall(c) && !c.DoReserve? && Truthful(s, c, now) && next == Apply(s.db, c, now)
    ensures |next.attempts| == |s.execs|
    ensures forall i {:trigger SettledAt(s, next, i)} :: 0 <= i < |s.execs| ==> SettledAt(s, next, i)
  {
    forall i | 0 <= i < |s.execs| ensures SettledAt(s, next, i) {
      BackgroundSettles(s, c, now, i);
    }
    if s.execs == [] {
      BackgroundEmpty(s, c, now);
    } else {
      assert SettledAt(s, next, 0);
    }
  }

  predicate SettledAt(s: Sys, next: Ledger, i: AttemptId) {
    && i < |s.execs| == |s.db.attempts| == |next.attempts|
    && Settles(s.db.attempts[i], next.attempts[i], s.execs[i], i in s.engine, InEpoch(s.db.attempts[i], s.dead))
  }

  lemma SettledInv(s: Sys, t: Sys, next: Ledger)
    requires t == s.(db := next) && SysInv(s) && Sound(s.db, next) && |next.attempts| == |s.execs|
    requires forall i {:trigger SettledAt(s, next, i)} :: 0 <= i < |s.execs| ==> SettledAt(s, next, i)
    ensures SysInv(t)
  {
    forall i | 0 <= i < |s.execs| ensures SysRow(t, i) {
      assert SysRow(s, i) && AttemptInv(s.db, i) && AttemptInv(next, i) && SettledAt(s, next, i);
      assert AttemptEvolves(s.db.attempts[i], next.attempts[i]);
      BackgroundRow(s, t, i);
    }
  }

  lemma BackgroundEmpty(s: Sys, c: Command, now: Time)
    requires SysInv(s) && !OwnerCall(c) && !c.DoReserve? && s.execs == []
    ensures |Apply(s.db, c, now).attempts| == 0
  {
    match c {
      case DoReconcile(page) =>
      case DoSettleLost(k) =>
      case DoConfirmStopped(p, epoch, recover) =>
      case DoSettleIdle(p, epoch, since, ids) =>
      case _ => SameAttempts(s.db, c, now);
    }
  }

  lemma ReserveInv(s: Sys, t: Sys, step: Step)
    requires SysInv(s) && step.Reserve? && t == Do(s, step)
    ensures SysInv(t)
  {
    ApplySound(s.db, DoReserve(step.pool, step.owner, step.candidates), step.now);
    if step.pool in s.db.pools {
      ScanAttempts(s.db, step.pool, step.owner, step.candidates, step.now);
    }
    forall i | 0 <= i < |t.execs| ensures SysRow(t, i) {
      if i < |s.execs| {
        assert SysRow(s, i);
        assert t.db.attempts[i] == t.db.attempts[..|s.db.attempts|][i] || t.db.attempts == s.db.attempts;
      } else {
        assert i !in s.engine && i !in Known(s.sched);
      }
    }
  }

  lemma ExecutorRow(s: Sys, t: Sys, step: Step)
    requires step.Acquire? || step.GiveUp? || step.Check? || step.Send? || step.Outcome? || step.Crash?
    requires Enabled(s, step) && SysRow(s, step.i) && AttemptOk(s.db.attempts[step.i]) && t == Do(s, step)
    ensures SysRow(t, step.i)
  {
  }

  lemma ExecutorFrame(s: Sys, t: Sys, step: Step)
    requires step.Acquire? || step.GiveUp? || step.Check? || step.Send? || step.Outcome? || step.Crash?
    requires Enabled(s, step) && t == Do(s, step)
    ensures t == s.(execs := t.execs, engine := t.engine) && |t.execs| == |s.execs|
    ensures forall j :: 0 <= j < |s.execs| && j != step.i ==> t.execs[j] == s.execs[j]
    ensures forall j :: j != step.i ==> (j in t.engine <==> j in s.engine)
  {
  }

  /** The steps of one executor that leave the ledger alone. */
  lemma ExecutorInv(s: Sys, t: Sys, step: Step)
    requires SysInv(s) && Enabled(s, step) && t == Do(s, step)
    requires step.Acquire? || step.GiveUp? || step.Check? || step.Send? || step.Outcome? || step.Crash?
    ensures SysInv(t)
  {
    assert SysRow(s, step.i) && AttemptInv(s.db, step.i);
    ExecutorRow(s, t, step);
    ExecutorFrame(s, t, step);
    RowStep(s, t, step.i);
  }

  /** A call for attempt `i` that leaves its row in order. */
  lemma OwnerStep(s: Sys, t: Sys, i: AttemptId, c: Command, now: Time)
    requires SysInv(s) && i < |s.execs| && OwnerCall(c) && c.res.attempt == i && LedgerRuns.Permitted(s.db, c)
    requires t == s.(db := Apply(s.db, c, now), execs := t.execs) && |t.execs| == |s.execs|
    requires forall j :: 0 <= j < |s.execs| && j != i ==> t.execs[j] == s.execs[j]
    requires |t.db.attempts| == |s.db.attempts| && SysRow(t, i)
    ensures SysInv(t)
  {
    ApplySound(s.db, c, now);
    forall j | 0 <= j < |s.execs| && j != i ensures t.db.attempts[j] == s.db.attempts[j] {
      OwnerCallElsewhere(s.db, c, now, j);
    }
    RowStep(s, t, i);
  }

  lemma MarkRow(s: Sys, t: Sys, i: AttemptId, acknowledged: bool, now: Time)
    requires Enabled(s, Mark(i, acknowledged, now)) && t == Do(s, Mark(i, acknowledged, now)) && SysRow(s, i)
    ensures |t.db.attempts| == |s.db.attempts| && SysRow(t, i)
  {
  }

  lemma RenewInv(s: Sys, t: Sys, i: AttemptId, now: Time)
    requires SysInv(s) && Enabled(s, Renew(i, now)) && t == Do(s, Renew(i, now))
    ensures SysInv(t)
  {
    assert SysRow(s, i);
    OwnerStep(s, t, i, DoHeartbeat(ReservationOf(s.db, i)), now);
  }

  lemma MarkInv(s: Sys, t: Sys, i: AttemptId, acknowledged: bool, now: Time)
    requires SysInv(s) && Enabled(s, Mark(i, acknowledged, now)) && t == Do(s, Mark(i, acknowledged, now))
    ensures SysInv(t)
  {
    assert SysRow(s, i);
    MarkRow(s, t, i, acknowledged, now);
    OwnerStep(s, t, i, DoMarkSend(ReservationOf(s.db, i)), now);
  }

  /** What a call that ends an attempt does to its row; only evidence clears the claim on compute. */
  predicate EndsRow(a: Attempt, b: Attempt, proven: bool) {
    && (b == a || b.state == Unknown || b.state == BackendFinished || Final(b.state))
    && (a.computeHeld && !b.computeHeld ==> proven)
    && (!a.computeHeld ==> !b.computeHeld)
    && SameAttempt(a, b)
  }

  lemma EndsRowOf(db: Ledger, cause: Cause, c: Command, now: Time)
    requires c.DoFail? || c.DoComputeFinished? || c.DoCommitResult? || c.DoMarkUnknown?
    requires c.res.attempt < |db.attempts| && Ends(cause, c, ReservationOf(db, c.res.attempt))
    ensures |Apply(db, c, now).attempts| == |db.attempts|
    ensures EndsRow(db.attempts[c.res.attempt], Apply(db, c, now).attempts[c.res.attempt], cause != Uncertain)
  {
    match c
    case DoFail(res, why, notSent, retry, delay) => FailEnds(db, res, why, notSent, retry, delay, now);
    case DoComputeFinished(res) =>
    case DoCommitResult(res, artifact, usage) => CommitEnds(db, res, artifact, usage, now);
    case DoMarkUnknown(res, why) =>
  }

  lemma FailEnds(db: Ledger, res: Reservation, why: Why, notSent: bool, retry: bool, delay: nat, now: Time)
    requires res.attempt < |db.attempts|
    ensures var next := LedgerRuns.After(db, Fail(db, res, why, notSent, retry, delay, now));
      |next.attempts| == |db.attempts| && EndsRow(db.attempts[res.attempt], next.attempts[res.attempt], true)
  {
  }

  lemma CommitEnds(db: Ledger, res: Reservation, artifact: Blob, usage: Option<nat>, now: Time)
    requires res.attempt < |db.attempts|
    ensures var next := LedgerRuns.After(db, CommitResult(db, res, artifact, usage, now));
      |next.attempts| == |db.attempts| && EndsRow(db.attempts[res.attempt], next.attempts[res.attempt], true)
  {
  }

  /** The executor's own calls never strand an attempt: it reports `unknown` only after its SEND_INTENT. */
  lemma EndsPermitted(s: Sys, i: AttemptId, c: Command, now: Time)
    requires SysInv(s) && Enabled(s, WriteEnd(i, c, now))
    ensures LedgerRuns.Permitted(s.db, c)
  {
    assert SysRow(s, i);
  }

  lemma WriteEndInv(s: Sys, t: Sys, i: AttemptId, c: Command, now: Time)
    requires SysInv(s) && Enabled(s, WriteEnd(i, c, now)) && t == Do(s, WriteEnd(i, c, now))
    ensures SysInv(t)
  {
    EndsPermitted(s, i, c, now);
    ApplySound(s.db, c, now);
    EndsRowOf(s.db, s.execs[i].cause, c, now);
    forall j | 0 <= j < |s.execs| && j != i ensures t.db.attempts[j] == s.db.attempts[j] {
      OwnerCallElsewhere(s.db, c, now, j);
    }
    assert SysRow(s, i) && AttemptEvolves(s.db.attempts[i], t.db.attempts[i]);
    RowStep(s, t, i);
  }

  lemma EngineInv(s: Sys, t: Sys, step: Step)
    requires SysInv(s) && Enabled(s, step) && (step.EngineEnds? || step.EpochDies?) && t == Do(s, step)
    ensures SysInv(t)
  {
    forall j | 0 <= j < |t.execs| ensures SysRow(t, j) {
      assert SysRow(s, j);
    }
  }

  predicate SchedulerStep(step: Step) {
    step.Grant? || step.SchedulerDies? || step.BootRead? || step.BootInstall?
    || step.ReleaseRead? || step.ReleaseApply? || step.ReconcileRead? || step.ReconcileApply?
  }

  lemma SchedulerRow(s: Sys, t: Sys, step: Step, j: AttemptId)
    requires SysRow(s, j) && AttemptOk(s.db.attempts[j]) && Enabled(s, step) && SchedulerStep(step)
    requires t == Do(s, step)
    ensures SysRow(t, j)
  {
  }

  /** The scheduler's steps: what it holds, what it reads from the ledger and what it drops on that. */
  lemma SchedulerInv(s: Sys, t: Sys, step: Step)
    requires SysInv(s) && Enabled(s, step) && SchedulerStep(step) && t == Do(s, step)
    ensures SysInv(t)
  {
    SchedulerKnown(s, t, step);
    forall j | 0 <= j < |t.execs| ensures SysRow(t, j) {
      assert SysRow(s, j) && AttemptInv(s.db, j);
      SchedulerRow(s, t, step, j);
    }
  }

  lemma SchedulerKnown(s: Sys, t: Sys, step: Step)
    requires Enabled(s, step) && SchedulerStep(step) && t == Do(s, step) && |s.execs| == |s.db.attempts|
    requires forall i :: i in Known(s.sched) ==> i < |s.execs|
    ensures t.db == s.db && t.execs == s.execs && t.engine == s.engine
    ensures forall i :: i in Known(t.sched) ==> i < |t.execs|
  {
    var more: set<AttemptId> := match step
      case Grant(i) => {i}
      case ReleaseRead(i) => {i}
      case BootRead => Hydrated(s.db)
      case _ => {};
    assert forall i :: i in more ==> i < |s.execs|;
    if step.ReconcileRead? {
      assert t.sched.permits == s.sched.permits && t.sched.releasing == s.sched.releasing;
      assert t.sched.dropping <= s.sched.permits;
    }
    assert Known(t.sched) <= Known(s.sched) + more;
  }

  /** Every step keeps the invariant. */
  lemma StepInv(s: Sys, t: Sys, step: Step)
    requires SysInv(s) && Enabled(s, step) && t == Do(s, step)
    ensures SysInv(t)
  {
    if SchedulerStep(step) {
      SchedulerInv(s, t, step);
    } else if step.EngineEnds? || step.EpochDies? {
      EngineInv(s, t, step);
    } else if step.Acquire? || step.GiveUp? || step.Check? || step.Send? || step.Outcome? || step.Crash? {
      ExecutorInv(s, t, step);
    } else {
      TransactionInv(s, t, step);
    }
  }

  /** The steps that run a transaction of the ledger. */
  lemma TransactionInv(s: Sys, t: Sys, step: Step)
    requires SysInv(s) && Enabled(s, step) && t == Do(s, step)
    requires step.Background? || step.Reserve? || step.Renew? || step.Mark? || step.WriteEnd?
    ensures SysInv(t)
  {
    match step
    case Background(c, now) => BackgroundInv(s, t, Apply(s.db, c, now), c, now);
    case Reserve(_, _, _, _) => ReserveInv(s, t, step);
    case Renew(i, now) => RenewInv(s, t, i, now);
    case Mark(i, acknowledged, now) => MarkInv(s, t, i, acknowledged, now);
    case WriteEnd(i, c, now) => WriteEndInv(s, t, i, c, now);
  }

  // ---------------------------------------------------------------- whole runs

  predicate Start(s: Sys) {
    LedgerRuns.Initial(s.db) && s.execs == [] && s.engine == {} && s.sched.Down?
  }

  predicate Leads(s: Sys, step: Step, t: Sys) {
    Enabled(s, step) && t == Do(s, step)
  }

  ghost predicate IsSysRun(run: seq<Sys>, steps: seq<Step>) {
    && |run| == |steps| + 1
    && Start(run[0])
    && forall k: nat {:trigger Taken(run, steps, k)} :: k < |steps| ==> Taken(run, steps, k)
  }

  /** Step `k` leads from state `k` to the next. */
  predicate Taken(run: seq<Sys>, steps: seq<Step>, k: nat) {
    k < |steps| && k + 1 < |run| && Leads(run[k], steps[k], run[k + 1])
  }

  lemma {:induction false} SysRunInvariant(run: seq<Sys>, steps: seq<Step>, k: nat)
    requires IsSysRun(run, steps) && k < |run|
    ensures SysInv(run[k])
    decreases k
  {
    if k > 0 {
      SysRunInvariant(run, steps, k - 1);
      assert Taken(run, steps, k - 1);
      StepInv(run[k - 1], run[k], steps[k - 1]);
    }
  }

  /**
   The safety theorem.  Whatever crashes, restarts, loses its answer or reads
   stale rows: an attempt an engine computes is recorded as holding compute and
   budget in the ledger, occupies a permit of a running scheduler and is already
   in what a starting scheduler hydrates; and no other attempt of its operation
   is computed beside it.
   */
  lemma ComputingIsHeld(run: seq<Sys>, steps: seq<Step>, k: nat, i: AttemptId, j: AttemptId)
    requires IsSysRun(run, steps) && k < |run| && i in run[k].engine
    ensures i < |run[k].db.attempts|
    ensures var a := run[k].db.attempts[i]; a.computeHeld && a.budgetHeld && a.sent && !Final(a.state)
    ensures run[k].sched.Up? ==> i in run[k].sched.permits
    ensures run[k].sched.Booting? ==> i in run[k].sched.held
    ensures j in run[k].engine && j < |run[k].db.attempts| && run[k].db.attempts[j].op == run[k].db.attempts[i].op
      ==> j == i
  {
    var s := run[k];
    SysRunInvariant(run, steps, k);
    assert SysRow(s, i) && AttemptInv(s.db, i);
    if j in s.engine {
      assert SysRow(s, j) && AttemptInv(s.db, j);
    }
  }

  /**
   An operation whose retry was decided has no computation left behind: only the active
   attempt of an operation in flight may compute.
   */
  lemma QueuedIsIdle(run: seq<Sys>, steps: seq<Step>, k: nat, i: AttemptId)
    requires IsSysRun(run, steps) && k < |run| && i in run[k].engine
    ensures i < |run[k].db.attempts| && run[k].db.attempts[i].op in run[k].db.ops
    ensures var op := run[k].db.ops[run[k].db.attempts[i].op]; !Queued(op.state) && op.active == Some(i)
  {
    SysRunInvariant(run, steps, k);
    assert SysRow(run[k], i) && AttemptInv(run[k].db, i);
  }

  // ---------------------------------------------------------------- a run in which an engine computes

  /** A ledger with one pool and nothing else. */
  function Empty(): Ledger {
    Sample().(roots := map[], ops := map[], attempts := [])
  }

  function Created(): Ledger {
    Empty().(roots := map[0 := NewRoot(RUN.spec)])
  }

  function Submitted(): Ledger {
    Created().(roots := map[0 := RUN], ops := map[0 := Operation(TASK, Ready, None, 0, None, None, NoReason)])
  }

  lemma RootAdmitted()
    ensures CreateRoot(Empty(), 0, RUN.spec, 0) == Commit(Created())
  {
    var e := Empty();
    assert (set r | r in e.roots && e.roots[r].state == Running) <= e.roots.Keys;
    assert NewRoot(RUN.spec).budgets == map[Tokens := Budget(100, 0, 0)];
  }

  lemma OperationAdmitted()
    ensures SubmitOperation(Created(), 0, TASK, 0) == Commit(Submitted())
  {
    var c := Created();
    assert OpenOps(c, 0) <= c.ops.Keys && OpenOpsOfModel(c, 0) <= c.ops.Keys;
    assert NewRoot(RUN.spec).budgets == map[Tokens := Budget(100, 0, 0)];
    assert AddOperation(c, 0, TASK, 0).roots == Submitted().roots;
    assert AddOperation(c, 0, TASK, 0).ops == Submitted().ops;
  }

  lemma OperationReserved()
    ensures ReserveNext(Submitted(), 0, 0, [0], 0) == (Sample(), Some(Reservation(0, 0, 1)))
  {
    var s := Submitted();
    assert Insert(s, 0, 0, 0, 0).ops == Sample().ops && Insert(s, 0, 0, 0, 0).attempts == Sample().attempts;
  }

  function Offline(db: Ledger, execs: seq<Exec>): Sys {
    Sys(db, execs, {}, {}, Down)
  }

  function Online(db: Ledger, e: Exec, permits: set<AttemptId>, engine: set<AttemptId>): Sys {
    Sys(db, [e], engine, {}, Up(permits, {}, {}))
  }

  lemma CreateLeads()
    ensures Leads(Offline(Empty(), []), Background(DoCreateRoot(0, RUN.spec), 0), Offline(Created(), []))
  {
    RootAdmitted();
  }

  lemma SubmitLeads()
    ensures Leads(Offline(Created(), []), Background(DoSubmitOperation(0, TASK), 0), Offline(Submitted(), []))
  {
    OperationAdmitted();
  }

  lemma ReserveLeads()
    ensures Leads(Offline(Submitted(), []), Reserve(0, 0, [0], 0), Offline(Sample(), [Waiting]))
  {
    OperationReserved();
  }

  lemma BootLeads()
    ensures Leads(Offline(Sample(), [Waiting]), BootRead, Sys(Sample(), [Waiting], {}, {}, Booting({})))
    ensures Leads(Sys(Sample(), [Waiting], {}, {}, Booting({})), BootInstall, Online(Sample(), Waiting, {}, {}))
  {
    assert Hydrated(Sample()) == {};
  }

  lemma PermitLeads()
    ensures Leads(Online(Sample(), Waiting, {}, {}), Grant(0), Online(Sample(), Waiting, {0}, {}))
    ensures Leads(Online(Sample(), Waiting, {0}, {}), Acquire(0), Online(Sample(), Exec.Permitted, {0}, {}))
  {
    assert {} + {0} == {0};
  }

  function SentSample(): Ledger {
    LedgerRuns.After(Sample(), MarkSend(Sample(), Reservation(0, 0, 1), 1))
  }

  lemma MarkLeads()
    ensures Leads(Online(Sample(), Exec.Permitted, {0}, {}), Mark(0, true, 1), Online(SentSample(), Marked, {0}, {}))
  {
  }

  lemma SendLeads()
    ensures Leads(Online(SentSample(), Marked, {0}, {}), Check(0), Online(SentSample(), Cleared, {0}, {}))
    ensures Leads(Online(SentSample(), Cleared, {0}, {}), Send(0), Online(SentSample(), Sent, {0}, {0}))
  {
  }

  lemma Extend(run: seq<Sys>, steps: seq<Step>, step: Step, t: Sys) returns (longer: seq<Sys>, more: seq<Step>)
    requires IsSysRun(run, steps) && Leads(run[|run| - 1], step, t)
    ensures IsSysRun(longer, more) && longer[|longer| - 1] == t
  {
    longer, more := run + [t], steps + [step];
    forall k: nat | k < |more| ensures Taken(longer, more, k) {
      assert k < |steps| ==> Taken(run, steps, k);
    }
  }

  lemma RunToReservation() returns (run: seq<Sys>, steps: seq<Step>)
    ensures IsSysRun(run, steps) && run[|run| - 1] == Offline(Sample(), [Waiting])
  {
    CreateLeads();
    SubmitLeads();
    ReserveLeads();
    run, steps := [Offline(Empty(), [])], [];
    run, steps := Extend(run, steps, Background(DoCreateRoot(0, RUN.spec), 0), Offline(Created(), []));
    run, steps := Extend(run, steps, Background(DoSubmitOperation(0, TASK), 0), Offline(Submitted(), []));
    run, steps := Extend(run, steps, Reserve(0, 0, [0], 0), Offline(Sample(), [Waiting]));
  }

  lemma RunToPermit() returns (run: seq<Sys>, steps: seq<Step>)
    ensures IsSysRun(run, steps) && run[|run| - 1] == Online(Sample(), Exec.Permitted, {0}, {})
  {
    BootLeads();
    PermitLeads();
    run, steps := RunToReservation();
    run, steps := Extend(run, steps, BootRead, Sys(Sample(), [Waiting], {}, {}, Booting({})));
    run, steps := Extend(run, steps, BootInstall, Online(Sample(), Waiting, {}, {}));
    run, steps := Extend(run, steps, Grant(0), Online(Sample(), Waiting, {0}, {}));
    run, steps := Extend(run, steps, Acquire(0), Online(Sample(), Exec.Permitted, {0}, {}));
  }

  /** The safety theorem is about something: a run in which an attempt is admitted, permitted, sent and computed. */
  lemma SomeEngineComputes() returns (run: seq<Sys>, steps: seq<Step>)
    ensures IsSysRun(run, steps) && 0 in run[|steps|].engine
  {
    MarkLeads();
    SendLeads();
    run, steps := RunToPermit();
    run, steps := Extend(run, steps, Mark(0, true, 1), Online(SentSample(), Marked, {0}, {}));
    run, steps := Extend(run, steps, Check(0), Online(SentSample(), Cleared, {0}, {}));
    run, steps := Extend(run, steps, Send(0), Online(SentSample(), Sent, {0}, {0}));
  }

  // ---------------------------------------------------------------- a run in which the epochs differ

  /** The same ledger after its pool was given another epoch. */
  function Reconfigured(): Ledger {
    Sample().(pools := map[0 := Pool(POOL, 2, Healthy, 1)])
  }

  lemma ReconfigurationLeads()
    ensures Leads(Online(Sample(), Exec.Permitted, {0}, {}), Background(DoConfigurePool(0, POOL, 2), 1),
                  Online(Reconfigured(), Exec.Permitted, {0}, {}))
  {
    var db := Sample();
    assert !exists i :: 0 <= i < |db.attempts| && db.attempts[i].pool == 0
                        && (db.attempts[i].computeHeld || db.attempts[i].budgetHeld);
    assert db.pools[0 := Pool(POOL, 2, Healthy, 1)] == Reconfigured().pools;
  }

  function SentReconfigured(): Ledger {
    LedgerRuns.After(Reconfigured(), MarkSend(Reconfigured(), Reservation(0, 0, 1), 1))
  }

  lemma LateMarkLeads()
    ensures Leads(Online(Reconfigured(), Exec.Permitted, {0}, {}), Mark(0, true, 1),
                  Online(SentReconfigured(), Marked, {0}, {}))
  {
  }

  lemma LateSendLeads()
    ensures Leads(Online(SentReconfigured(), Marked, {0}, {}), Check(0), Online(SentReconfigured(), Cleared, {0}, {}))
    ensures Leads(Online(SentReconfigured(), Cleared, {0}, {}), Send(0), Online(SentReconfigured(), Sent, {0}, {0}))
  {
  }

  lemma RunToReconfiguration() returns (run: seq<Sys>, steps: seq<Step>)
    ensures IsSysRun(run, steps) && run[|run| - 1] == Online(SentReconfigured(), Marked, {0}, {})
  {
    ReconfigurationLeads();
    LateMarkLeads();
    run, steps := RunToPermit();
    run, steps := Extend(run, steps, Background(DoConfigurePool(0, POOL, 2), 1),
                         Online(Reconfigured(), Exec.Permitted, {0}, {}));
    run, steps := Extend(run, steps, Mark(0, true, 1), Online(SentReconfigured(), Marked, {0}, {}));
  }

  /** A pool reconfigured between permit and send: a run in which an attempt computes and is held on another epoch. */
  lemma HeldEpochMayDiffer() returns (run: seq<Sys>, steps: seq<Step>)
    ensures IsSysRun(run, steps)
    ensures var s := run[|steps|];
      && 0 in s.engine && 0 < |s.db.attempts| && s.db.attempts[0].computeHeld && s.db.attempts[0].pool in s.db.pools
      && s.db.pools[s.db.attempts[0].pool].epoch != s.db.attempts[0].epoch
  {
    LateSendLeads();
    SentEpochDiffers();
    run, steps := RunToReconfiguration();
    run, steps := Extend(run, steps, Check(0), Online(SentReconfigured(), Cleared, {0}, {}));
    run, steps := Extend(run, steps, Send(0), Online(SentReconfigured(), Sent, {0}, {0}));
    assert run[|steps|].db == SentReconfigured();
  }

  lemma SentEpochDiffers()
    ensures var db := SentReconfigured();
      && 0 < |db.attempts| && db.attempts[0].computeHeld && db.attempts[0].pool in db.pools
      && db.pools[db.attempts[0].pool].epoch != db.attempts[0].epoch
  {
  }
}
