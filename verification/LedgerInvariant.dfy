/**
 The invariant of the ledger: which flags an attempt may hold in which state, at
 most one live attempt per operation, exact books per root and unit, and exactly
 the completions that are due.  Each clause is kept by every transaction.

 The clauses are stated row by row; the row predicates are also the triggers of
 the quantifiers over rows, so a proof instantiates a clause by asserting its row.
 */
module LedgerInvariant {
  import opened Ledger

  // ---------------------------------------------------------------- sums over the attempt table

  datatype Measure =
    | Held(root: RootId, unit: Unit)     // budget reserved and not yet settled
    | Used(root: RootId, unit: Unit)     // usage charged
    | Over(root: RootId, unit: Unit)     // usage charged above the bound that was reserved
    | RootSends(root: RootId)
    | OpSends(op: OpId)

  function Weight(a: Attempt, m: Measure): nat {
    match m
    case Held(r, u) => if a.root == r && a.unit == u && a.budgetHeld then a.bound else 0
    case Used(r, u) => if a.root == r && a.unit == u && a.usage.Some? then a.usage.value else 0
    case Over(r, u) =>
      if a.root == r && a.unit == u && a.usage.Some? && a.usage.value > a.bound then a.usage.value - a.bound else 0
    case RootSends(r) => if a.root == r && a.sent then 1 else 0
    case OpSends(o) => if a.op == o && a.sent then 1 else 0
  }

  function Total(s: seq<Attempt>, m: Measure): nat {
    if s == [] then 0 else Total(s[..|s| - 1], m) + Weight(s[|s| - 1], m)
  }

  lemma {:induction false} TotalUpdate(s: seq<Attempt>, i: nat, a: Attempt, m: Measure)
    requires i < |s|
    ensures Total(s[i := a], m) == Total(s, m) - Weight(s[i], m) + Weight(a, m)
  {
    var last := |s| - 1;
    if i == last {
      assert s[i := a][..last] == s[..last];
    } else {
      assert s[i := a][..last] == s[..last][i := a];
      TotalUpdate(s[..last], i, a, m);
    }
  }

  lemma TotalAppend(s: seq<Attempt>, a: Attempt, m: Measure)
    ensures Total(s + [a], m) == Total(s, m) + Weight(a, m)
  {
    assert (s + [a])[..|s|] == s;
  }

  lemma {:induction false} TotalZero(s: seq<Attempt>, m: Measure)
    requires forall i :: 0 <= i < |s| ==> Weight(s[i], m) == 0
    ensures Total(s, m) == 0
  {
    if s != [] {
      TotalZero(s[..|s| - 1], m);
    }
  }

  // ---------------------------------------------------------------- the clauses

  /** The flags an attempt may show in each state. */
  predicate AttemptOk(a: Attempt) {
    && (a.computeHeld ==> a.budgetHeld && (a.state == SendIntent || a.state == Unknown))
    && (a.state == Reserved ==> !a.sent && !a.finished)
    && (a.state == SendIntent ==> a.computeHeld)
    && (a.budgetHeld ==> a.sent && a.usage.None?)
    && (a.sent && !a.budgetHeld ==> a.usage.Some? && Final(a.state))
    && (!a.sent ==> a.usage.None?)
    && (Final(a.state) ==> !a.budgetHeld)
    && (a.state == BackendFinished ==> a.finished)
    && (a.state == Unknown ==> a.unknownAt.Some?)
  }

  /** An attempt nothing could ever settle: uncertain, holding no compute, never seen to end. */
  predicate Stranded(a: Attempt) {
    a.state == Unknown && !a.computeHeld && !a.finished
  }

  /** What an operation in flight says about its active attempt. */
  predicate Carries(op: Operation, s: AttemptState) {
    && (op.state == Executing ==> s == Reserved || s == SendIntent || s == BackendFinished)
    && (op.state == Reconciling ==> s == Unknown || s == BackendFinished)
  }

  predicate InFlight(s: OpState) {
    s == Executing || s == Reconciling
  }

  ghost predicate OpOk(s: seq<Attempt>, o: OpId, op: Operation) {
    && (op.active.Some? ==> op.active.value < |s| && s[op.active.value].op == o)
    && (InFlight(op.state) ==> op.active.Some? && Carries(op, s[op.active.value].state))
    && (op.result.Some? <==> op.state == OpSucceeded)
    && op.attempts == Total(s, OpSends(o)) <= op.spec.maxAttempts
  }

  /** Run states in which no operation of the run may still be open. */
  predicate Closed(s: RunState) {
    s == Succeeded || s == Partial || s == Cancelled
  }

  predicate BudgetsOk(root: Root) {
    && root.budgets.Keys == root.spec.limits.Keys
    && (forall u :: u in root.budgets ==> root.budgets[u].limit == root.spec.limits[u])
    && (root.state == Running ==> forall u :: u in root.budgets ==> root.budgets[u].spent <= root.budgets[u].limit)
  }

  predicate RootOk(root: Root) {
    && BudgetsOk(root)
    && root.attempts <= root.spec.maxAttempts
    && (root.state == Running ==> root.result.None?)
    && (root.cancelRequested <==> root.state == Cancelled)
    && (root.state == Cancelled ==> root.reason == UserCancelled && root.result.None?)
  }

  predicate BudgetOk(b: Budget, held: nat, used: nat, over: nat) {
    b.reserved == held && b.spent == used && b.spent + b.reserved <= b.limit + over
  }

  ghost predicate Books(s: seq<Attempt>, r: RootId, root: Root) {
    && root.attempts == Total(s, RootSends(r))
    && forall u :: u in root.budgets ==>
         BudgetOk(root.budgets[u], Total(s, Held(r, u)), Total(s, Used(r, u)), Total(s, Over(r, u)))
  }

  // ---------------------------------------------------------------- the clauses, row by row

  predicate AttemptInv(db: Ledger, i: AttemptId) {
    && Linked(db, i)
    && var a, op := db.attempts[i], db.ops[db.attempts[i].op];
       && op.spec.unit == a.unit && op.spec.bound == a.bound
       && AttemptOk(a)
       && !Stranded(a)
       && (!Final(a.state) ==> op.active == Some(i) && !Queued(op.state))
  }

  ghost predicate OpInv(db: Ledger, o: OpId) {
    && Joined(db, o)
    && db.ops[o].spec.unit in db.roots[db.ops[o].spec.root].budgets
    && OpOk(db.attempts, o, db.ops[o])
    && (Closed(db.roots[db.ops[o].spec.root].state) ==> Terminal(db.ops[o].state))
  }

  ghost predicate RootInv(db: Ledger, r: RootId) {
    r in db.roots && RootOk(db.roots[r]) && Books(db.attempts, r, db.roots[r])
  }

  /** A completion is published exactly when its operation has ended. */
  predicate BindingInv(db: Ledger, b: BindingId) {
    && b in db.bindings && db.bindings[b] in db.ops
    && (b in db.completions <==> Terminal(db.ops[db.bindings[b]].state))
  }

  ghost predicate Inv(db: Ledger) {
    && (forall i {:trigger AttemptInv(db, i)} :: 0 <= i < |db.attempts| ==> AttemptInv(db, i))
    && (forall o {:trigger OpInv(db, o)} :: o in db.ops ==> OpInv(db, o))
    && (forall r {:trigger RootInv(db, r)} :: r in db.roots ==> RootInv(db, r))
    && (forall b {:trigger BindingInv(db, b)} :: b in db.bindings ==> BindingInv(db, b))
    && db.completions <= db.bindings.Keys
  }

  // ---------------------------------------------------------------- one attempt at a time

  /** `next` differs from `db` only in attempt `i`, its operation, its root and completions. */
  ghost predicate OnlyAt(db: Ledger, next: Ledger, i: AttemptId) {
    && Linked(db, i) && Linked(next, i)
    && SameAttempt(db.attempts[i], next.attempts[i])
    && var o, r := db.attempts[i].op, db.attempts[i].root;
       && next.attempts == db.attempts[i := next.attempts[i]]
       && next.ops == db.ops[o := next.ops[o]]
       && next.roots == db.roots[r := next.roots[r]]
       && next.bindings == db.bindings
  }

  /** How one budget moves when its attempt moves from `a` to `b`. */
  predicate BudgetMoves(x: Budget, y: Budget, a: Attempt, b: Attempt, r: RootId, u: Unit) {
    && y.limit == x.limit
    && y.reserved == x.reserved - Weight(a, Held(r, u)) + Weight(b, Held(r, u))
    && y.spent == x.spent - Weight(a, Used(r, u)) + Weight(b, Used(r, u))
    && (y.spent + y.reserved <= x.limit
        || y.spent + y.reserved <= x.spent + x.reserved - Weight(a, Over(r, u)) + Weight(b, Over(r, u)))
  }

  predicate RootMoves(x: Root, y: Root, a: Attempt, b: Attempt) {
    && y.spec == x.spec
    && y.budgets.Keys == x.budgets.Keys
    && (forall u :: u in x.budgets ==> BudgetMoves(x.budgets[u], y.budgets[u], a, b, a.root, u))
    && y.attempts == x.attempts - Weight(a, RootSends(a.root)) + Weight(b, RootSends(a.root))
    && RootOk(y)
    && (Closed(y.state) ==> y.state == x.state)
  }

  predicate OpMoves(x: Operation, y: Operation, i: AttemptId, a: Attempt, b: Attempt) {
    && y.spec == x.spec
    && y.attempts == x.attempts - Weight(a, OpSends(a.op)) + Weight(b, OpSends(a.op))
    && y.attempts <= y.spec.maxAttempts
    && (y.result.Some? <==> y.state == OpSucceeded)
    && (y.active.None? || y.active == Some(i))
    && (InFlight(y.state) ==> y.active == Some(i) && Carries(y, b.state))
    && (!Final(b.state) ==> y.active == Some(i) && !Queued(y.state))
    && (Terminal(x.state) ==> y.state == x.state)
  }

  ghost predicate Moves(db: Ledger, next: Ledger, i: AttemptId)
    requires OnlyAt(db, next, i)
  {
    var a, b := db.attempts[i], next.attempts[i];
    && AttemptOk(b) && !Stranded(b)
    && OpMoves(db.ops[a.op], next.ops[a.op], i, a, b)
    && RootMoves(db.roots[a.root], next.roots[a.root], a, b)
    && ((Terminal(next.ops[a.op].state) && next.completions == db.completions + BindingsOf(db.bindings, {a.op}))
        || (Terminal(next.ops[a.op].state) == Terminal(db.ops[a.op].state) && next.completions == db.completions))
  }

  lemma BooksMove(s: seq<Attempt>, i: AttemptId, b: Attempt, r: RootId, x: Root, y: Root)
    requires i < |s| && SameAttempt(s[i], b) && Books(s, r, x)
    requires if r == s[i].root then RootMoves(x, y, s[i], b) else y == x
    ensures Books(s[i := b], r, y)
  {
    TotalUpdate(s, i, b, RootSends(r));
    forall u | u in y.budgets
      ensures BudgetOk(y.budgets[u], Total(s[i := b], Held(r, u)), Total(s[i := b], Used(r, u)),
                       Total(s[i := b], Over(r, u)))
    {
      assert u in x.budgets;
      TotalUpdate(s, i, b, Held(r, u));
      TotalUpdate(s, i, b, Used(r, u));
      TotalUpdate(s, i, b, Over(r, u));
      assert r == s[i].root ==> BudgetMoves(x.budgets[u], y.budgets[u], s[i], b, r, u);
    }
  }

  lemma OpMove(s: seq<Attempt>, i: AttemptId, b: Attempt, o: OpId, x: Operation, y: Operation)
    requires i < |s| && SameAttempt(s[i], b) && OpOk(s, o, x)
    requires if o == s[i].op then OpMoves(x, y, i, s[i], b) else y == x && x.active != Some(i)
    ensures OpOk(s[i := b], o, y)
  {
    TotalUpdate(s, i, b, OpSends(o));
  }

  lemma AttemptRow(db: Ledger, next: Ledger, i: AttemptId, j: AttemptId)
    requires OnlyAt(db, next, i) && Moves(db, next, i)
    requires AttemptInv(db, i) && AttemptInv(db, j) && !Final(db.attempts[i].state)
    ensures AttemptInv(next, j)
  {
  }

  lemma OpRow(db: Ledger, next: Ledger, i: AttemptId, o: OpId)
    requires OnlyAt(db, next, i) && Moves(db, next, i)
    requires AttemptInv(db, i) && !Final(db.attempts[i].state) && OpInv(db, o)
    ensures OpInv(next, o)
  {
    OpMove(db.attempts, i, next.attempts[i], o, db.ops[o], next.ops[o]);
  }

  lemma RootRow(db: Ledger, next: Ledger, i: AttemptId, r: RootId)
    requires OnlyAt(db, next, i) && Moves(db, next, i) && RootInv(db, r)
    ensures RootInv(next, r)
  {
    BooksMove(db.attempts, i, next.attempts[i], r, db.roots[r], next.roots[r]);
  }

  lemma BindingRow(db: Ledger, next: Ledger, i: AttemptId, b: BindingId)
    requires OnlyAt(db, next, i) && Moves(db, next, i) && BindingInv(db, b)
    ensures BindingInv(next, b)
  {
  }

  /** A change confined to one live attempt keeps the invariant if it does so locally. */
  lemma InvAt(db: Ledger, next: Ledger, i: AttemptId)
    requires Inv(db) && OnlyAt(db, next, i) && Moves(db, next, i) && !Final(db.attempts[i].state)
    ensures Inv(next)
  {
    assert AttemptInv(db, i);
    forall j | 0 <= j < |next.attempts| ensures AttemptInv(next, j) {
      assert AttemptInv(db, j);
      AttemptRow(db, next, i, j);
    }
    forall o | o in next.ops ensures OpInv(next, o) {
      assert OpInv(db, o);
      OpRow(db, next, i, o);
    }
    forall r | r in next.roots ensures RootInv(next, r) {
      assert RootInv(db, r);
      RootRow(db, next, i, r);
    }
    forall b | b in next.bindings ensures BindingInv(next, b) {
      assert BindingInv(db, b);
      BindingRow(db, next, i, b);
    }
  }
}
