/** What accepting, sealing and dispatching come to, said of items, batches and their workflows themselves. */
module BufferEffects {
  import opened Buffering
  import opened Ledger

  // ---------------------------------------------------------------- acceptance

  /** The item waits for its batch, or for its workflow to end. */
  predicate Outstanding(b: Buffer, i: Ordinal) {
    && i < |b.items|
    && (b.items[i].batch.None?
        || (var f := b.items[i].batch.value;
            f in b.batches
            && (b.batches[f].state == Preparing
                || (b.batches[f].state == Submitted && f in b.roots && b.roots[f] == Running))))
  }

  function All(b: Buffer): set<Ordinal> {
    set i: nat | i < |b.items| && Outstanding(b, i)
  }

  /** The quotas leave room for one more item: in all, of its tenant, and of its partition. */
  ghost predicate HasRoom(b: Buffer, item: Item, limits: Limits) {
    && |All(b)| < b.maxPending
    && |set i | i in All(b) && b.items[i].tenant == item.tenant| < limits.maxPerTenant
    && |set i | i in All(b) && b.items[i].partition == item.partition| < limits.maxPerPartition
  }

  lemma AllIsBacklog(b: Buffer)
    ensures All(b) == Backlog(b)
  {
    forall i: nat ensures Outstanding(b, i) <==> Pending(b, i) {
    }
  }

  /** What the task allows. */
  predicate Allowed(item: Item, delay: nat, limits: Option<Limits>) {
    && limits.Some? && 0 < item.policy.batchSize <= limits.value.maxBatch && delay <= limits.value.maxDelay
  }

  /**
   A new submission is accepted if and only if its task allows it and the quotas have
   room; it is then due in time.
   */
  lemma AppendNew(b: Buffer, item: Item, delay: nat, limits: Option<Limits>, now: Time)
    requires forall i :: 0 <= i < |b.items| ==> !(b.items[i].tenant == item.tenant && b.items[i].key == item.key)
    ensures var (c, r) := Append(b, item, delay, limits, now);
      if !Allowed(item, delay, limits) then c == b && r == Refused(false)
      else if !HasRoom(b, item, limits.value) then c == b && r == Refused(true)
      else r == AcceptedAs(|b.items|) && c == b.(items := c.items) && |c.items| == |b.items| + 1
           && c.items[..|b.items|] == b.items && c.items[|b.items|] == item.(due := now + delay, batch := None)
  {
    LookupKey(b.items, item.tenant, item.key);
    AllIsBacklog(b);
  }

  /** A repeated submission is the one it repeats, or a conflict if it says something else. */
  lemma AppendAgain(b: Buffer, item: Item, delay: nat, limits: Option<Limits>, now: Time, i: Ordinal)
    requires i < |b.items| && b.items[i].tenant == item.tenant && b.items[i].key == item.key
    requires forall j :: 0 <= j < |b.items| && b.items[j].tenant == item.tenant && b.items[j].key == item.key ==> j == i
    ensures Append(b, item, delay, limits, now) ==
      (b, if b.items[i].input == item.input && b.items[i].partition == item.partition then AcceptedAs(i) else Clash)
  {
    LookupKey(b.items, item.tenant, item.key);
  }

  // ---------------------------------------------------------------- sealing

  /** A batch of the partition prepares, runs, or is not known to have started. */
  ghost predicate Busy(b: Buffer, p: Partition) {
    exists f :: f in b.batches && b.batches[f].partition == p
                && (b.batches[f].state == Preparing
                    || (b.batches[f].state == Submitted && (f !in b.roots || b.roots[f] == Running)))
  }

  /** An item starts a batch if it is the oldest unsealed one of a partition that is not busy, and due. */
  lemma SealableIff(b: Buffer, i: Ordinal, now: Time)
    ensures Sealable(b, i, now) <==>
      i < |b.items| && b.items[i].batch == None && b.items[i].due <= now && !Busy(b, b.items[i].partition)
      && forall j :: 0 <= j < i && b.items[j].partition == b.items[i].partition ==> b.items[j].batch.Some?
  {
    if i < |b.items| {
      assert (forall f :: f in b.batches && b.batches[f].partition == b.items[i].partition ==> !OpenBatch(b, f))
        <==> !Busy(b, b.items[i].partition);
    }
  }

  /** The unsealed items of the partition from `k` on and before `i`. */
  function Between(items: seq<Item>, p: Partition, k: nat, i: nat): set<nat> {
    set j: nat | j < i && k <= j && j < |items| && items[j].partition == p && items[j].batch == None
  }

  lemma BetweenStep(items: seq<Item>, p: Partition, k: nat, i: nat)
    requires k < i && k < |items|
    ensures Between(items, p, k, i) ==
      (if items[k].partition == p && items[k].batch == None then {k} else {}) + Between(items, p, k + 1, i)
    ensures k !in Between(items, p, k + 1, i)
  {
  }

  /**
   A run takes exactly the unsealed items of its partition up to its size, and none from
   the first other policy on.
   */
  lemma {:induction false} SelectIff(items: seq<Item>, p: Partition, policy: Policy, k: nat, room: nat, i: nat)
    ensures i in Select(items, p, policy, k, room) <==>
      k <= i < |items| && items[i].partition == p && items[i].batch == None
      && (forall j :: k <= j <= i && items[j].partition == p && items[j].batch == None ==> items[j].policy == policy)
      && |Between(items, p, k, i)| < room
    decreases |items| - k
  {
    if k < |items| && room > 0 {
      if k < i {
        BetweenStep(items, p, k, i);
      } else {
        assert Between(items, p, k, i) == {};
      }
      if items[k].partition != p || items[k].batch.Some? {
        SelectIff(items, p, policy, k + 1, room, i);
      } else if items[k].policy == policy {
        SelectIff(items, p, policy, k + 1, room - 1, i);
        if k == i {
          assert Between(items, p, k, k) == {};
        }
      }
    }
  }

  /** Sealing makes one batch of the run that starts at its first item, and touches no other item. */
  lemma SealDoes(b: Buffer, f: Ordinal, now: Time)
    requires f < |b.items|
    ensures var c, first := SealAt(b, f, now), b.items[f];
      && |c.items| == |b.items| && c.roots == b.roots && c.clock == b.clock && c.maxPending == b.maxPending
      && c.batches.Keys == b.batches.Keys + {f}
        && (forall g :: g in b.batches && g != f ==> c.batches[g] == b.batches[g])
      && c.batches[f] == Batch(first.partition, first.policy, now + first.policy.duration, now, Preparing)
      && forall i :: 0 <= i < |b.items| ==>
           c.items[i] == if i in Select(b.items, first.partition, first.policy, f, first.policy.batchSize)
                         then b.items[i].(batch := Some(f)) else b.items[i]
  {
  }

  // ---------------------------------------------------------------- dispatch

  /** Submitting a batch makes its workflow run, once, if its deadline lies ahead. */
  lemma SubmitDoes(b: Buffer, f: Ordinal, now: Time)
    ensures var c := Submit(b, f, now);
      && c == b.(roots := c.roots) && (forall g :: g != f ==> (g in c.roots <==> g in b.roots))
      && (forall g :: g in b.roots ==> g in c.roots && c.roots[g] == b.roots[g])
      && (f !in b.roots ==> (f in c.roots <==> f in b.batches && b.batches[f].deadline > now))
      && (f !in b.roots && f in c.roots ==> c.roots[f] == Running)
  {
  }

  /** A batch that prepares is submitted when acknowledged; any other stays as it is. */
  lemma AcknowledgeDoes(b: Buffer, f: Ordinal)
    ensures var c := Acknowledge(b, f);
      && c == b.(batches := c.batches) && c.batches.Keys == b.batches.Keys
      && (forall g :: g in b.batches && g != f ==> c.batches[g] == b.batches[g])
      && (f in b.batches ==> c.batches[f] == b.batches[f].(state := if b.batches[f].state == Preparing then Submitted
                                                                    else b.batches[f].state))
  {
  }

  /** A failed dispatch is tried again later, unless the deadline is past and no workflow was made. */
  lemma DeferDoes(b: Buffer, f: Ordinal, now: Time)
    ensures var c := Defer(b, f, now);
      && c == b.(batches := c.batches) && c.batches.Keys == b.batches.Keys
      && (forall g :: g in b.batches && g != f ==> c.batches[g] == b.batches[g])
      && (f in b.batches && b.batches[f].state != Preparing ==> c.batches[f] == b.batches[f])
      && (f in b.batches && b.batches[f].state == Preparing ==>
            c.batches[f] == b.batches[f].(retryAt := now + 10,
                                          state := if f !in b.roots && b.batches[f].deadline <= now then BatchFailed
                                                   else Preparing))
  {
  }
}
