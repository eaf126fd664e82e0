/**
 The waiting lines of the in-memory scheduler: one heap per pool whose entries
 are never removed when their waiter leaves, and counters kept beside it.  The
 lines are shown to behave as a set of waiters ordered by class, queue time and
 identity.  A heap is written as its entries in order, least first.
 */
module WaitQueue {
  import opened Ledger

  type Id = nat

  datatype Class = Qa | UserTask | Background | Maintenance

  function Rank(c: Class): nat {
    match c
    case Qa => 0
    case UserTask => 1
    case Background => 2
    case Maintenance => 3
  }

  datatype Waiter = Waiter(tenant: TenantId, pool: PoolId, owner: OwnerId, workload: Class, deadline: Time,
                           queuedAt: Time, direct: bool)

  datatype Entry = Entry(rank: nat, queuedAt: Time, id: Id)

  datatype Lines = Lines(waiters: map<Id, Waiter>, queues: map<PoolId, seq<Entry>>,
                         queued: map<PoolId, int>, byTenant: map<(PoolId, TenantId), int>)

  /** The order of heap entries. */
  predicate Leq(a: Entry, b: Entry) {
    a.rank < b.rank
    || (a.rank == b.rank && (a.queuedAt < b.queuedAt || (a.queuedAt == b.queuedAt && a.id <= b.id)))
  }

  predicate Sorted(q: seq<Entry>) {
    forall i, j :: 0 <= i < j < |q| ==> Leq(q[i], q[j])
  }

  function EntryOf(id: Id, w: Waiter): Entry {
    Entry(Rank(w.workload), w.queuedAt, id)
  }

  function Queue(l: Lines, p: PoolId): seq<Entry> {
    if p in l.queues then l.queues[p] else []
  }

  /** A counter that was never touched reads zero. */
  function Count<K>(m: map<K, int>, k: K): int {
    if k in m then m[k] else 0
  }

  // ---------------------------------------------------------------- operations

  /** `heappush`. */
  function Push(q: seq<Entry>, e: Entry): seq<Entry> {
    if q == [] || Leq(e, q[0]) then [e] + q else [q[0]] + Push(q[1..], e)
  }

  /** `_add_waiter`. */
  function Join(l: Lines, id: Id, w: Waiter): Lines {
    Lines(l.waiters[id := w], l.queues[w.pool := Push(Queue(l, w.pool), EntryOf(id, w))],
          if w.direct then l.queued[w.pool := Count(l.queued, w.pool) + 1] else l.queued,
          if w.direct then l.byTenant[(w.pool, w.tenant) := Count(l.byTenant, (w.pool, w.tenant)) + 1] else l.byTenant)
  }

  /** `_remove_waiter`: the heap keeps the entry. */
  function Leave(l: Lines, id: Id): Lines {
    if id !in l.waiters then l else
      var w := l.waiters[id];
      Lines(l.waiters - {id}, l.queues,
            if w.direct then l.queued[w.pool := Count(l.queued, w.pool) - 1] else l.queued,
            if w.direct then l.byTenant[(w.pool, w.tenant) := Count(l.byTenant, (w.pool, w.tenant)) - 1]
            else l.byTenant)
  }

  /** How `_first` recognises the entry of a waiter: it does not compare the class. */
  predicate Matches(waiters: map<Id, Waiter>, p: PoolId, e: Entry) {
    e.id in waiters && waiters[e.id].pool == p && waiters[e.id].queuedAt == e.queuedAt
  }

  /** `_first`: drop stale heads and expired waiters until a live waiter is at the head. */
  function First(l: Lines, p: PoolId, now: Time): (Lines, Option<Id>)
    decreases |Queue(l, p)|, |l.waiters|
  {
    var q := Queue(l, p);
    if q == [] then (l, None)
    else if !Matches(l.waiters, p, q[0]) then First(l.(queues := l.queues[p := q[1..]]), p, now)
    else if l.waiters[q[0].id].deadline <= now then First(Leave(l, q[0].id), p, now)
    else (l, Some(q[0].id))
  }

  function Without(q: seq<Entry>, id: Id): seq<Entry> {
    if q == [] then [] else (if q[0].id == id then [] else [q[0]]) + Without(q[1..], id)
  }

  /** The end of a refused `try_reserve`: the waiter, and every entry it left in the heap of the pool. */
  function Erase(l: Lines, p: PoolId, id: Id): Lines {
    var left := Leave(l, id);
    if p in left.queues then left.(queues := left.queues[p := Without(left.queues[p], id)]) else left
  }

  // ---------------------------------------------------------------- what the lines always satisfy

  function InPool(ws: map<Id, Waiter>, p: PoolId): set<Id> {
    set id | id in ws && ws[id].direct && ws[id].pool == p
  }

  function OfTenant(ws: map<Id, Waiter>, p: PoolId, t: TenantId): set<Id> {
    set id | id in ws && ws[id].direct && ws[id].pool == p && ws[id].tenant == t
  }

  predicate Listed(l: Lines, id: Id) {
    id in l.waiters && EntryOf(id, l.waiters[id]) in Queue(l, l.waiters[id].pool)
  }

  ghost predicate CountsOk(l: Lines) {
    && (forall p :: Count(l.queued, p) == |InPool(l.waiters, p)|)
    && (forall p, t :: Count(l.byTenant, (p, t)) == |OfTenant(l.waiters, p, t)|)
  }

  ghost predicate WellFormed(l: Lines) {
    && (forall p :: Sorted(Queue(l, p)))
    && (forall id {:trigger Listed(l, id)} :: id in l.waiters ==> Listed(l, id))
    && CountsOk(l)
  }

  // ---------------------------------------------------------------- proofs: the heap

  lemma {:induction false} PushSorted(q: seq<Entry>, e: Entry)
    requires Sorted(q)
    ensures Sorted(Push(q, e)) && |Push(q, e)| == |q| + 1
    ensures forall x :: x in Push(q, e) <==> x == e || x in q
  {
    if q != [] && !Leq(e, q[0]) {
      PushSorted(q[1..], e);
      assert q == [q[0]] + q[1..];
      forall x | x in Push(q[1..], e) ensures Leq(q[0], x) {
        assert x == e || x in q[1..];
      }
    }
  }

  lemma {:induction false} WithoutSorted(q: seq<Entry>, id: Id)
    requires Sorted(q)
    ensures Sorted(Without(q, id))
    ensures forall x :: x in Without(q, id) <==> x in q && x.id != id
  {
    if q != [] {
      WithoutSorted(q[1..], id);
      assert q == [q[0]] + q[1..];
      forall x | x in Without(q[1..], id) ensures Leq(q[0], x) {
        assert x in q[1..];
      }
    }
  }

  /** A heap without entries of a request is not changed by erasing it. */
  lemma {:induction false} WithoutAbsent(q: seq<Entry>, id: Id)
    requires forall e :: e in q ==> e.id != id
    ensures Without(q, id) == q
  {
    if q != [] {
      WithoutAbsent(q[1..], id);
      assert q == [q[0]] + q[1..];
    }
  }

  /** Erasing a request after its push is erasing it before. */
  lemma {:induction false} WithoutPushed(q: seq<Entry>, e: Entry)
    ensures Without(Push(q, e), e.id) == Without(q, e.id)
  {
    if q == [] || Leq(e, q[0]) {
      assert ([e] + q)[1..] == q;
    } else {
      WithoutPushed(q[1..], e);
      assert ([q[0]] + Push(q[1..], e))[1..] == Push(q[1..], e);
    }
  }

  /** Erasing a request undoes its push into a heap free of it. */
  lemma WithoutPush(q: seq<Entry>, e: Entry)
    requires forall x :: x in q ==> x.id != e.id
    ensures Without(Push(q, e), e.id) == q
  {
    WithoutPushed(q, e);
    WithoutAbsent(q, e.id);
  }

  // ---------------------------------------------------------------- proofs: the counters

  lemma JoinPool(l: Lines, id: Id, w: Waiter, p: PoolId)
    requires id !in l.waiters && Count(l.queued, p) == |InPool(l.waiters, p)|
    ensures Count(Join(l, id, w).queued, p) == |InPool(Join(l, id, w).waiters, p)|
  {
    var added: set<Id> := if w.direct && w.pool == p then {id} else {};
    assert InPool(l.waiters[id := w], p) == InPool(l.waiters, p) + added;
  }

  lemma JoinTenant(l: Lines, id: Id, w: Waiter, p: PoolId, t: TenantId)
    requires id !in l.waiters && Count(l.byTenant, (p, t)) == |OfTenant(l.waiters, p, t)|
    ensures Count(Join(l, id, w).byTenant, (p, t)) == |OfTenant(Join(l, id, w).waiters, p, t)|
  {
    var added: set<Id> := if w.direct && w.pool == p && w.tenant == t then {id} else {};
    assert OfTenant(l.waiters[id := w], p, t) == OfTenant(l.waiters, p, t) + added;
  }

  lemma JoinCounts(l: Lines, id: Id, w: Waiter)
    requires CountsOk(l) && id !in l.waiters
    ensures CountsOk(Join(l, id, w))
  {
    forall p ensures Count(Join(l, id, w).queued, p) == |InPool(Join(l, id, w).waiters, p)| {
      JoinPool(l, id, w, p);
    }
    forall p, t ensures Count(Join(l, id, w).byTenant, (p, t)) == |OfTenant(Join(l, id, w).waiters, p, t)| {
      JoinTenant(l, id, w, p, t);
    }
  }

  lemma LeavePool(l: Lines, id: Id, p: PoolId)
    requires id in l.waiters && Count(l.queued, p) == |InPool(l.waiters, p)|
    ensures Count(Leave(l, id).queued, p) == |InPool(Leave(l, id).waiters, p)|
  {
    assert InPool(l.waiters - {id}, p) == InPool(l.waiters, p) - {id};
  }

  lemma LeaveTenant(l: Lines, id: Id, p: PoolId, t: TenantId)
    requires id in l.waiters && Count(l.byTenant, (p, t)) == |OfTenant(l.waiters, p, t)|
    ensures Count(Leave(l, id).byTenant, (p, t)) == |OfTenant(Leave(l, id).waiters, p, t)|
  {
    assert OfTenant(l.waiters - {id}, p, t) == OfTenant(l.waiters, p, t) - {id};
  }

  lemma LeaveCounts(l: Lines, id: Id)
    requires CountsOk(l) && id in l.waiters
    ensures CountsOk(Leave(l, id))
  {
    forall p ensures Count(Leave(l, id).queued, p) == |InPool(Leave(l, id).waiters, p)| {
      LeavePool(l, id, p);
    }
    forall p, t ensures Count(Leave(l, id).byTenant, (p, t)) == |OfTenant(Leave(l, id).waiters, p, t)| {
      LeaveTenant(l, id, p, t);
    }
  }

  // ---------------------------------------------------------------- every operation keeps the lines well formed

  lemma JoinWellFormed(l: Lines, id: Id, w: Waiter)
    requires WellFormed(l) && id !in l.waiters
    ensures WellFormed(Join(l, id, w))
  {
    var m := Join(l, id, w);
    PushSorted(Queue(l, w.pool), EntryOf(id, w));
    JoinCounts(l, id, w);
    forall p ensures Sorted(Queue(m, p)) {
      assert p != w.pool ==> Queue(m, p) == Queue(l, p);
    }
    forall j | j in m.waiters ensures Listed(m, j) {
      assert j != id ==> Listed(l, j);
    }
  }

  lemma LeaveWellFormed(l: Lines, id: Id)
    requires WellFormed(l)
    ensures WellFormed(Leave(l, id))
  {
    if id in l.waiters {
      LeaveCounts(l, id);
    }
    forall p ensures Queue(Leave(l, id), p) == Queue(l, p) {
    }
    forall j | j in Leave(l, id).waiters ensures Listed(Leave(l, id), j) {
      assert Listed(l, j);
    }
  }

  lemma DropHeadWellFormed(l: Lines, p: PoolId)
    requires WellFormed(l) && Queue(l, p) != [] && !Matches(l.waiters, p, Queue(l, p)[0])
    ensures WellFormed(l.(queues := l.queues[p := Queue(l, p)[1..]]))
  {
    var m := l.(queues := l.queues[p := Queue(l, p)[1..]]);
    forall j | j in m.waiters ensures Listed(m, j) {
      assert Listed(l, j);
      assert Queue(l, p) == [Queue(l, p)[0]] + Queue(m, p);
    }
    forall r ensures Sorted(Queue(m, r)) {
      assert Sorted(Queue(l, r));
    }
  }

  lemma EraseWellFormed(l: Lines, p: PoolId, id: Id)
    requires WellFormed(l)
    ensures WellFormed(Erase(l, p, id))
  {
    LeaveWellFormed(l, id);
    var left, m := Leave(l, id), Erase(l, p, id);
    assert Sorted(Queue(left, p));
    WithoutSorted(Queue(left, p), id);
    forall j | j in m.waiters ensures Listed(m, j) {
      assert Listed(left, j);
    }
    forall r ensures Sorted(Queue(m, r)) {
      assert Sorted(Queue(left, r));
    }
  }

  // ---------------------------------------------------------------- `_first` as the least of a set

  /** The waiters `_first` chooses among. */
  predicate Alive(l: Lines, p: PoolId, now: Time, id: Id) {
    id in l.waiters && l.waiters[id].pool == p && l.waiters[id].deadline > now
  }

  /** What `_first` may change: stale entries and expired waiters of the pool go, nothing else. */
  ghost predicate Evicts(l: Lines, m: Lines, p: PoolId, now: Time) {
    && m.waiters.Keys <= l.waiters.Keys
    && (forall id :: id in l.waiters ==>
          if id in m.waiters then m.waiters[id] == l.waiters[id]
          else l.waiters[id].pool == p && l.waiters[id].deadline <= now)
    && (forall r :: r != p ==> Queue(m, r) == Queue(l, r))
    && (exists k: nat :: k <= |Queue(l, p)| && Queue(m, p) == Queue(l, p)[k..]
          && forall e :: e in Queue(l, p)[..k] ==> !Matches(m.waiters, p, e))
  }

  /** One turn of the loop of `_first`, when it does not return. */
  function LoopTurn(l: Lines, p: PoolId): Lines
    requires Queue(l, p) != []
  {
    var q := Queue(l, p);
    if !Matches(l.waiters, p, q[0]) then l.(queues := l.queues[p := q[1..]]) else Leave(l, q[0].id)
  }

  lemma DropEvicts(l: Lines, m: Lines, p: PoolId, now: Time)
    requires Queue(l, p) != [] && Evicts(LoopTurn(l, p), m, p, now) && !Matches(l.waiters, p, Queue(l, p)[0])
    ensures Evicts(l, m, p, now)
  {
    var t, q := LoopTurn(l, p), Queue(l, p);
    var k: nat :| k <= |Queue(t, p)| && Queue(m, p) == Queue(t, p)[k..]
      && forall e :: e in Queue(t, p)[..k] ==> !Matches(m.waiters, p, e);
    assert Queue(t, p) == q[1..] && q[1..][k..] == q[k + 1..];
    forall e | e in q[..k + 1] ensures !Matches(m.waiters, p, e) {
      assert q[..k + 1] == [q[0]] + q[1..][..k];
    }
    forall r | r != p ensures Queue(m, r) == Queue(l, r) {
      assert Queue(t, r) == Queue(l, r);
    }
  }

  lemma ExpireEvicts(l: Lines, m: Lines, p: PoolId, now: Time)
    requires Queue(l, p) != [] && Evicts(LoopTurn(l, p), m, p, now) && Matches(l.waiters, p, Queue(l, p)[0])
    requires l.waiters[Queue(l, p)[0].id].deadline <= now
    ensures Evicts(l, m, p, now)
  {
    var t := LoopTurn(l, p);
    assert t.queues == l.queues;
    assert forall r :: Queue(t, r) == Queue(l, r);
  }

  lemma {:induction false} FirstEvicts(l: Lines, p: PoolId, now: Time)
    requires WellFormed(l)
    ensures WellFormed(First(l, p, now).0) && Evicts(l, First(l, p, now).0, p, now)
    decreases |Queue(l, p)|, |l.waiters|
  {
    var q := Queue(l, p);
    if q == [] || (Matches(l.waiters, p, q[0]) && l.waiters[q[0].id].deadline > now) {
      assert q[0..] == q;
    } else {
      if Matches(l.waiters, p, q[0]) {
        LeaveWellFormed(l, q[0].id);
      } else {
        DropHeadWellFormed(l, p);
      }
      FirstEvicts(LoopTurn(l, p), p, now);
      if Matches(l.waiters, p, q[0]) {
        ExpireEvicts(l, First(l, p, now).0, p, now);
      } else {
        DropEvicts(l, First(l, p, now).0, p, now);
      }
    }
  }

  /** A waiter that is alive stays alive, and `_first` ends at the head of the heap or with nobody alive. */
  lemma {:induction false} FirstHead(l: Lines, p: PoolId, now: Time)
    ensures var r := First(l, p, now);
      match r.1
      case None => Queue(r.0, p) == []
      case Some(id) => Queue(r.0, p) != [] && Queue(r.0, p)[0].id == id && Alive(r.0, p, now, id)
                       && Matches(r.0.waiters, p, Queue(r.0, p)[0])
    decreases |Queue(l, p)|, |l.waiters|
  {
    var q := Queue(l, p);
    if q != [] && !(Matches(l.waiters, p, q[0]) && l.waiters[q[0].id].deadline > now) {
      FirstHead(LoopTurn(l, p), p, now);
    }
  }

  lemma EvictsKeeps(l: Lines, m: Lines, p: PoolId, now: Time, e: Entry)
    requires Evicts(l, m, p, now) && e in Queue(l, p)
    requires Matches(l.waiters, p, e) && l.waiters[e.id].deadline > now
    ensures e in Queue(m, p) && forall x :: x in Queue(m, p) ==> x in Queue(l, p)
  {
    var q := Queue(l, p);
    var k: nat :| k <= |q| && Queue(m, p) == q[k..] && forall x :: x in q[..k] ==> !Matches(m.waiters, p, x);
    assert q == q[..k] + q[k..] && Matches(m.waiters, p, e);
  }

  /** No entry of a waiter alive stands before the head that `_first` ends at. */
  lemma FirstNotAfter(l: Lines, p: PoolId, now: Time, e: Entry)
    requires WellFormed(l) && e in Queue(l, p) && Matches(l.waiters, p, e) && l.waiters[e.id].deadline > now
    ensures var (m, first) := First(l, p, now);
      && first.Some? && Queue(m, p) != []
      && var head := Queue(m, p)[0];
         head.id == first.value && head in Queue(l, p) && Matches(m.waiters, p, head) && Leq(head, e)
  {
    var m := First(l, p, now).0;
    FirstEvicts(l, p, now);
    FirstHead(l, p, now);
    EvictsKeeps(l, m, p, now, e);
    assert Sorted(Queue(m, p));
  }

  /** What `_first` is for: nobody exactly when nobody is alive, and otherwise the least waiter alive. */
  ghost predicate FirstLeast(l: Lines, p: PoolId, now: Time) {
    match First(l, p, now).1
    case None => forall j :: !Alive(l, p, now, j)
    case Some(id) => Alive(l, p, now, id) && forall j :: Alive(l, p, now, j) ==> Before(l, id, j)
  }

  /** Waiter `i` stands no later than waiter `j`, by class, queue time and identity. */
  predicate Before(l: Lines, i: Id, j: Id)
    requires i in l.waiters && j in l.waiters
  {
    Leq(EntryOf(i, l.waiters[i]), EntryOf(j, l.waiters[j]))
  }

  // ---------------------------------------------------------------- entries that promise too much

  /** `_first` does not compare classes, so an entry is honest if it promises no better class than its waiter has. */
  predicate HonestEntry(ws: map<Id, Waiter>, p: PoolId, now: Time, e: Entry) {
    Matches(ws, p, e) && ws[e.id].deadline > now ==> e.rank >= Rank(ws[e.id].workload)
  }

  ghost predicate Honest(l: Lines, now: Time) {
    forall p, e :: e in Queue(l, p) ==> HonestEntry(l.waiters, p, now, e)
  }

  lemma FirstIsLeast(l: Lines, p: PoolId, now: Time)
    requires WellFormed(l) && Honest(l, now)
    ensures FirstLeast(l, p, now)
  {
    FirstHead(l, p, now);
    FirstEvicts(l, p, now);
    forall j | Alive(l, p, now, j)
      ensures First(l, p, now).1.Some? && Before(l, First(l, p, now).1.value, j)
    {
      assert Listed(l, j);
      FirstNotAfter(l, p, now, EntryOf(j, l.waiters[j]));
      assert HonestEntry(l.waiters, p, now, Queue(First(l, p, now).0, p)[0]);
    }
  }

  /** The leftover entries of `id` at this reading promise no better class than it now comes with. */
  predicate Undemoted(l: Lines, id: Id, w: Waiter, now: Time) {
    forall e :: e in Queue(l, w.pool) && e.id == id && e.queuedAt == w.queuedAt && w.deadline > now
                ==> e.rank >= Rank(w.workload)
  }

  /** Entries stay honest over a join exactly when no leftover entry promises the newcomer a better class. */
  lemma JoinHonest(l: Lines, id: Id, w: Waiter, now: Time)
    requires WellFormed(l) && Honest(l, now) && id !in l.waiters
    ensures Honest(Join(l, id, w), now) <==> Undemoted(l, id, w, now)
  {
    var m := Join(l, id, w);
    PushSorted(Queue(l, w.pool), EntryOf(id, w));
    assert forall p :: p != w.pool ==> Queue(m, p) == Queue(l, p);
    if Honest(m, now) {
      forall e | e in Queue(l, w.pool) && e.id == id && e.queuedAt == w.queuedAt && w.deadline > now
        ensures e.rank >= Rank(w.workload)
      {
        assert e in Queue(m, w.pool) && HonestEntry(m.waiters, w.pool, now, e);
      }
    }
    if Undemoted(l, id, w, now) {
      forall p, e | e in Queue(m, p) ensures HonestEntry(m.waiters, p, now, e) {
        if e.id != id && e in Queue(l, p) {
          assert HonestEntry(l.waiters, p, now, e);
        }
      }
    }
  }

  /** `m` has only entries and waiters of `l`. */
  ghost predicate Fewer(l: Lines, m: Lines) {
    && (forall p, e :: e in Queue(m, p) ==> e in Queue(l, p))
    && (forall j :: j in m.waiters ==> j in l.waiters && m.waiters[j] == l.waiters[j])
  }

  /** With fewer entries and waiters, and the clock further on, only entries of waiters that left could have lied. */
  lemma FewerHonest(l: Lines, m: Lines, now: Time, later: Time)
    requires Fewer(l, m) && now <= later
    requires forall p, e :: e in Queue(l, p) && e.id in m.waiters ==> HonestEntry(l.waiters, p, now, e)
    ensures Honest(m, later)
  {
    forall p, e | e in Queue(m, p) ensures HonestEntry(m.waiters, p, later, e) {
      if e.id in m.waiters {
        assert e in Queue(l, p) && HonestEntry(l.waiters, p, now, e);
      }
    }
  }

  lemma LeaveFewer(l: Lines, id: Id)
    ensures Fewer(l, Leave(l, id))
  {
  }

  lemma FirstFewer(l: Lines, p: PoolId, now: Time)
    requires WellFormed(l)
    ensures Fewer(l, First(l, p, now).0)
  {
    var m := First(l, p, now).0;
    FirstEvicts(l, p, now);
    forall r, e | e in Queue(m, r) ensures e in Queue(l, r) {
      assert r != p ==> Queue(m, r) == Queue(l, r);
    }
  }

  lemma EraseFewer(l: Lines, p: PoolId, id: Id)
    requires WellFormed(l)
    ensures Fewer(l, Erase(l, p, id)) && id !in Erase(l, p, id).waiters
  {
    var m := Erase(l, p, id);
    assert Sorted(Queue(l, p)) && Queue(Leave(l, id), p) == Queue(l, p);
    WithoutSorted(Queue(l, p), id);
    forall r, e | e in Queue(m, r) ensures e in Queue(l, r) {
      assert r != p ==> Queue(m, r) == Queue(l, r);
    }
  }
}
