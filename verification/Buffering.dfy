/**
 Buffered submissions: accepted inputs are sealed into batches in acceptance
 order, and each batch becomes one workflow.  Any number of pumps may hold stale
 copies of batches, repeat submissions and lose acknowledgements.  Items are
 numbered by acceptance; a batch is named after its first item.
 */
module Buffering {
  import opened Ledger

  type Partition = nat
  type Ordinal = nat

  /** The accepted configuration, definition and batch size, with the duration of a workflow. */
  datatype Policy = Policy(configuration: nat, definition: nat, batchSize: nat, duration: nat)

  datatype Item = Item(tenant: TenantId, partition: Partition, key: nat, input: nat, policy: Policy, due: Time,
                       batch: Option<Ordinal>)

  datatype BatchState = Preparing | Submitted | BatchFailed

  datatype Batch = Batch(partition: Partition, policy: Policy, deadline: Time, retryAt: Time, state: BatchState)

  /** `clock` is the last clock reading of any transaction. */
  datatype Buffer = Buffer(items: seq<Item>, batches: map<Ordinal, Batch>, roots: map<Ordinal, RunState>, clock: Time,
                           maxPending: nat)

  /** What the definition of a task allows. */
  datatype Limits = Limits(maxBatch: nat, maxDelay: nat, maxPerTenant: nat, maxPerPartition: nat)

  datatype Accepted = AcceptedAs(id: Ordinal) | Clash | Refused(retryable: bool)

  // ---------------------------------------------------------------- acceptance

  predicate RunningRoot(b: Buffer, f: Ordinal) {
    f in b.roots && b.roots[f] == Running
  }

  /** The batch still prepares, or its workflow runs or is not known to have started. */
  predicate OpenBatch(b: Buffer, f: Ordinal) {
    f in b.batches
    && (b.batches[f].state == Preparing || (b.batches[f].state == Submitted && (RunningRoot(b, f) || f !in b.roots)))
  }

  /** The items `append` counts against the backlog. */
  predicate Pending(b: Buffer, i: Ordinal) {
    i < |b.items|
    && match b.items[i].batch
       case None => true
       case Some(f) =>
         f in b.batches && (b.batches[f].state == Preparing || (b.batches[f].state == Submitted && RunningRoot(b, f)))
  }

  function Backlog(b: Buffer): set<Ordinal> {
    set i: nat | i < |b.items| && Pending(b, i)
  }

  /** The item already accepted under a submission key. */
  function Lookup(items: seq<Item>, tenant: TenantId, key: nat): Option<Ordinal> {
    if items == [] then None
    else if items[|items| - 1].tenant == tenant && items[|items| - 1].key == key then Some(|items| - 1)
    else Lookup(items[..|items| - 1], tenant, key)
  }

  /** `append`. */
  function Append(b: Buffer, item: Item, delay: nat, limits: Option<Limits>, now: Time): (Buffer, Accepted) {
    match Lookup(b.items, item.tenant, item.key)
    case Some(i) =>
      if i < |b.items| && (b.items[i].input != item.input || b.items[i].partition != item.partition) then (b, Clash)
      else (b, AcceptedAs(i))
    case None =>
      if limits.None? || item.policy.batchSize > limits.value.maxBatch || delay > limits.value.maxDelay
         || item.policy.batchSize == 0
      then (b, Refused(false))
      else
        var ofTenant := set i | i in Backlog(b) && b.items[i].tenant == item.tenant;
        var ofPartition := set i | i in Backlog(b) && b.items[i].partition == item.partition;
        if |Backlog(b)| >= b.maxPending || |ofTenant| >= limits.value.maxPerTenant
            || |ofPartition| >= limits.value.maxPerPartition
        then (b, Refused(true))
        else (b.(items := b.items + [item.(due := now + delay, batch := None)]), AcceptedAs(|b.items|))
  }

  // ---------------------------------------------------------------- sealing

  /** The oldest unsealed item of a partition without an open batch, once it is due. */
  predicate Sealable(b: Buffer, i: Ordinal, now: Time) {
    && i < |b.items| && b.items[i].batch.None? && b.items[i].due <= now
    && (forall f :: f in b.batches && b.batches[f].partition == b.items[i].partition ==> !OpenBatch(b, f))
    && (forall j :: 0 <= j < i && b.items[j].partition == b.items[i].partition ==> b.items[j].batch.Some?)
  }

  /** The order in which sealable items are taken: by due time, then by acceptance. */
  predicate Earlier(b: Buffer, i: Ordinal, j: Ordinal)
    requires i < |b.items| && j < |b.items|
  {
    b.items[i].due < b.items[j].due || (b.items[i].due == b.items[j].due && i <= j)
  }

  /** The item `seal` takes next. */
  ghost predicate Next(b: Buffer, f: Ordinal, now: Time) {
    Sealable(b, f, now) && forall j :: Sealable(b, j, now) ==> Earlier(b, f, j)
  }

  /** The unsealed items of a partition from position `k` on: at most `room`, and only while the policy is the same. */
  function Select(items: seq<Item>, p: Partition, policy: Policy, k: nat, room: nat): set<Ordinal>
    decreases |items| - k
  {
    if k >= |items| || room == 0 then {}
    else if items[k].partition != p || items[k].batch.Some? then Select(items, p, policy, k + 1, room)
    else if items[k].policy != policy then {}
    else {k} + Select(items, p, policy, k + 1, room - 1)
  }

  function Assigned(items: seq<Item>, ids: set<Ordinal>, f: Ordinal): (r: seq<Item>)
    ensures |r| == |items|
    ensures forall i :: 0 <= i < |items| ==> r[i] == if i in ids then items[i].(batch := Some(f)) else items[i]
  {
    seq(|items|, i requires 0 <= i < |items| => if i in ids then items[i].(batch := Some(f)) else items[i])
  }

  /** One new batch, named after its first item. */
  function SealAt(b: Buffer, f: Ordinal, now: Time): Buffer
    requires f < |b.items|
  {
    var first := b.items[f];
    b.(items := Assigned(b.items, Select(b.items, first.partition, first.policy, f, first.policy.batchSize), f),
       batches := b.batches[f := Batch(first.partition, first.policy, now + first.policy.duration, now, Preparing)])
  }

  /** The batches one call of `seal` makes, in turn. */
  function SealAll(b: Buffer, picks: seq<Ordinal>, now: Time): Buffer
    decreases |picks|
  {
    if picks == [] then b else
      var before, f := SealAll(b, picks[..|picks| - 1], now), picks[|picks| - 1];
      if f < |before.items| then SealAt(before, f, now) else before
  }

  // ---------------------------------------------------------------- dispatch

  /** `submit_run` for a batch a pump holds: a repeated submission finds its root. */
  function Submit(b: Buffer, f: Ordinal, now: Time): Buffer {
    if f !in b.batches || f in b.roots || b.batches[f].deadline <= now then b
    else b.(roots := b.roots[f := Running])
  }

  /** The update that ends `dispatch`. */
  function Acknowledge(b: Buffer, f: Ordinal): Buffer {
    if f in b.batches && b.batches[f].state == Preparing
    then b.(batches := b.batches[f := b.batches[f].(state := Submitted)]) else b
  }

  /** The update of `tick` after a failed dispatch. */
  function Defer(b: Buffer, f: Ordinal, now: Time): Buffer {
    if f !in b.batches || b.batches[f].state != Preparing then b
    else
      var t := b.batches[f];
      b.(batches := b.batches[f := t.(retryAt := now + 10,
                                      state := if t.deadline <= now && f !in b.roots then BatchFailed else t.state)])
  }

  datatype Step =
    | DoAppend(item: Item, delay: nat, limits: Option<Limits>)
    | DoSeal(f: Ordinal)
    | DoSubmit(f: Ordinal)
    | DoAcknowledge(f: Ordinal)
    | DoDefer(f: Ordinal)
    | DoEnd(f: Ordinal, state: RunState)

  /**
   One turn of `seal` is a step; time does not go back; a pump acknowledges a submission
   that went through; ended runs stay ended.
   */
  ghost predicate Enabled(b: Buffer, step: Step, now: Time) {
    && b.clock <= now
    && match step
       case DoSeal(f) => Next(b, f, now)
       case DoAcknowledge(f) => f in b.roots
       case DoEnd(f, state) => RunningRoot(b, f) && state != Running
       case _ => true
  }

  function Do(b: Buffer, step: Step, now: Time): Buffer
    requires step.DoSeal? ==> step.f < |b.items|
  {
    var c := b.(clock := now);
    match step
    case DoAppend(item, delay, limits) => Append(c, item, delay, limits, now).0
    case DoSeal(f) => SealAt(c, f, now)
    case DoSubmit(f) => Submit(c, f, now)
    case DoAcknowledge(f) => Acknowledge(c, f)
    case DoDefer(f) => Defer(c, f, now)
    case DoEnd(f, state) => c.(roots := c.roots[f := state])
  }

  // ---------------------------------------------------------------- the invariant

  /** The items of one batch. */
  function Members(b: Buffer, f: Ordinal): set<Ordinal> {
    set i: nat | i < |b.items| && b.items[i].batch == Some(f)
  }

  /** A sealed item lies in a batch of its partition and policy that an item no younger than it gave its name. */
  predicate ItemRow(b: Buffer, i: Ordinal) {
    && i < |b.items| && b.items[i].policy.batchSize > 0
    && (b.items[i].batch.Some? ==>
          var f := b.items[i].batch.value;
          f <= i && f in b.batches && b.batches[f].partition == b.items[i].partition
            && b.batches[f].policy == b.items[i].policy)
  }

  /** Sealed items of a partition come before unsealed ones, and batches follow each other in acceptance order. */
  predicate PairRow(b: Buffer, i: Ordinal, j: Ordinal) {
    i < j < |b.items| && b.items[i].partition == b.items[j].partition && b.items[j].batch.Some? ==>
      b.items[i].batch.Some? && b.items[i].batch.value <= b.items[j].batch.value
  }

  /** A batch has its first item, is within its size, and has a root only if it has not failed. */
  predicate BatchRow(b: Buffer, f: Ordinal) {
    && f in b.batches && f < |b.items| && b.items[f].batch == Some(f)
    && |Members(b, f)| <= b.batches[f].policy.batchSize
    && (b.batches[f].state == Submitted ==> f in b.roots)
    && (b.batches[f].state == BatchFailed ==> f !in b.roots && b.batches[f].deadline <= b.clock)
  }

  /** Of two batches of a partition the earlier one is over. */
  predicate OrderRow(b: Buffer, f: Ordinal, g: Ordinal) {
    f in b.batches && g in b.batches && f < g && b.batches[f].partition == b.batches[g].partition ==> !OpenBatch(b, f)
  }

  ghost predicate BufferInv(b: Buffer) {
    && (forall i {:trigger ItemRow(b, i)} :: 0 <= i < |b.items| ==> ItemRow(b, i))
    && (forall i, j {:trigger PairRow(b, i, j)} :: PairRow(b, i, j))
    && (forall f {:trigger BatchRow(b, f)} :: f in b.batches ==> BatchRow(b, f))
    && (forall f, g {:trigger OrderRow(b, f, g)} :: OrderRow(b, f, g))
    && (forall f :: f in b.roots ==> f in b.batches)
    && |Backlog(b)| <= b.maxPending
  }

  // ---------------------------------------------------------------- proofs: selection

  predicate Selectable(items: seq<Item>, p: Partition, i: nat) {
    i < |items| && items[i].partition == p && items[i].batch.None?
  }

  /** `Select` takes unsealed items of one partition and one policy, ... */
  lemma {:induction false} SelectRow(items: seq<Item>, p: Partition, policy: Policy, k: nat, room: nat, i: nat)
    requires i in Select(items, p, policy, k, room)
    ensures k <= i && Selectable(items, p, i) && items[i].policy == policy
    decreases |items| - k
  {
    if items[k].partition != p || items[k].batch.Some? {
      SelectRow(items, p, policy, k + 1, room, i);
    } else if i != k {
      SelectRow(items, p, policy, k + 1, room - 1, i);
    }
  }

  /** ... at most `room` of them, ... */
  lemma {:induction false} SelectSize(items: seq<Item>, p: Partition, policy: Policy, k: nat, room: nat)
    ensures |Select(items, p, policy, k, room)| <= room
    decreases |items| - k
  {
    if k < |items| && room > 0 {
      if items[k].partition != p || items[k].batch.Some? {
        SelectSize(items, p, policy, k + 1, room);
      } else if items[k].policy == policy {
        SelectSize(items, p, policy, k + 1, room - 1);
      }
    }
  }

  /** ... and none between them is left out. */
  lemma {:induction false} SelectGapless(items: seq<Item>, p: Partition, policy: Policy, k: nat, room: nat, i: nat,
                                         j: nat)
    requires k <= i < j && j in Select(items, p, policy, k, room) && Selectable(items, p, i)
    ensures i in Select(items, p, policy, k, room)
    decreases |items| - k
  {
    if i != k {
      if items[k].partition != p || items[k].batch.Some? {
        SelectGapless(items, p, policy, k + 1, room, i, j);
      } else {
        SelectGapless(items, p, policy, k + 1, room - 1, i, j);
      }
    }
  }

  /** The run ends only where it must: at its size, at another policy, or at the last item. */
  lemma {:induction false} SelectMaximal(items: seq<Item>, p: Partition, policy: Policy, k: nat, room: nat, j: nat)
    requires k <= j < |items| && items[j].partition == p && items[j].batch.None? && items[j].policy == policy
    requires forall i :: k <= i < j && items[i].partition == p && items[i].batch.None? ==> items[i].policy == policy
    ensures var ids := Select(items, p, policy, k, room); j in ids || |ids| == room
    decreases |items| - k
  {
    if room > 0 && k < j {
      if items[k].partition != p || items[k].batch.Some? {
        SelectMaximal(items, p, policy, k + 1, room, j);
      } else {
        SelectMaximal(items, p, policy, k + 1, room - 1, j);
        assert k in Select(items, p, policy, k + 1, room - 1) ==> false by {
          if k in Select(items, p, policy, k + 1, room - 1) {
            SelectRow(items, p, policy, k + 1, room - 1, k);
          }
        }
      }
    }
  }

  predicate SealedRow(b: Buffer, c: Buffer, f: Ordinal, ids: set<Ordinal>, i: Ordinal) {
    && i < |b.items| == |c.items| && f < |b.items|
    && c.items[i] == (if i in ids then b.items[i].(batch := Some(f)) else b.items[i])
    && (i in ids ==> f <= i && Selectable(b.items, b.items[f].partition, i) && b.items[i].policy == b.items[f].policy)
  }

  /** No item of the partition between two of the run is left out of it. */
  predicate Gapless(b: Buffer, f: Ordinal, ids: set<Ordinal>, i: Ordinal, j: Ordinal) {
    f < |b.items| && f <= i < j && j in ids && Selectable(b.items, b.items[f].partition, i) ==> i in ids
  }

  /** `c` is `b` with the run `ids` sealed into a batch named after its first item `f`. */
  ghost predicate Seals(b: Buffer, c: Buffer, f: Ordinal, ids: set<Ordinal>) {
    && f < |b.items| == |c.items| && f in ids && |ids| <= b.items[f].policy.batchSize
    && (forall i {:trigger SealedRow(b, c, f, ids, i)} :: 0 <= i < |b.items| ==> SealedRow(b, c, f, ids, i))
    && (forall i, j {:trigger Gapless(b, f, ids, i, j)} :: Gapless(b, f, ids, i, j))
    && f in c.batches && c.batches == b.batches[f := c.batches[f]]
    && c.batches[f].partition == b.items[f].partition && c.batches[f].policy == b.items[f].policy
    && c.batches[f].state == Preparing
    && c.roots == b.roots && c.clock == b.clock && c.maxPending == b.maxPending
  }

  lemma SealAtSeals(b: Buffer, f: Ordinal, now: Time)
    requires BufferInv(b) && Sealable(b, f, now)
    ensures Seals(b, SealAt(b, f, now), f,
                  Select(b.items, b.items[f].partition, b.items[f].policy, f, b.items[f].policy.batchSize))
  {
    var first, c := b.items[f], SealAt(b, f, now);
    var ids := Select(b.items, first.partition, first.policy, f, first.policy.batchSize);
    assert ItemRow(b, f);
    SelectSize(b.items, first.partition, first.policy, f, first.policy.batchSize);
    forall i | 0 <= i < |b.items| ensures SealedRow(b, c, f, ids, i) {
      if i in ids {
        SelectRow(b.items, first.partition, first.policy, f, first.policy.batchSize, i);
      }
    }
    forall i, j ensures Gapless(b, f, ids, i, j) {
      if f <= i < j && j in ids && Selectable(b.items, first.partition, i) {
        SelectGapless(b.items, first.partition, first.policy, f, first.policy.batchSize, i, j);
      }
    }
  }

  lemma SealPair(b: Buffer, c: Buffer, f: Ordinal, ids: set<Ordinal>, now: Time, i: Ordinal, j: Ordinal)
    requires BufferInv(b) && Sealable(b, f, now) && Seals(b, c, f, ids)
    ensures PairRow(c, i, j)
  {
    if i < j < |c.items| {
      assert SealedRow(b, c, f, ids, i) && SealedRow(b, c, f, ids, j);
      assert PairRow(b, i, j) && PairRow(b, f, j) && PairRow(b, f, i) && ItemRow(b, i) && Gapless(b, f, ids, i, j);
    }
  }

  lemma SealBatch(b: Buffer, c: Buffer, f: Ordinal, ids: set<Ordinal>, now: Time, g: Ordinal)
    requires BufferInv(b) && Sealable(b, f, now) && Seals(b, c, f, ids) && g in c.batches
    ensures BatchRow(c, g)
  {
    if g == f {
      assert SealedRow(b, c, f, ids, f);
      forall i | i in Members(c, f) ensures i in ids {
        assert ItemRow(b, i) && SealedRow(b, c, f, ids, i);
        assert f in b.batches ==> BatchRow(b, f);
      }
      SubsetSize(Members(c, f), ids);
    } else {
      assert BatchRow(b, g) && SealedRow(b, c, f, ids, g);
      forall i | i in Members(c, g) ensures i in Members(b, g) {
        assert SealedRow(b, c, f, ids, i);
      }
      SubsetSize(Members(c, g), Members(b, g));
    }
  }

  lemma SealOrder(b: Buffer, c: Buffer, f: Ordinal, ids: set<Ordinal>, now: Time, g: Ordinal, h: Ordinal)
    requires BufferInv(b) && Sealable(b, f, now) && Seals(b, c, f, ids)
    ensures OrderRow(c, g, h)
  {
    assert OrderRow(b, g, h);
    if g == f && h in b.batches && f < h {
      assert BatchRow(b, h) && ItemRow(b, h) && PairRow(b, f, h);
    }
  }

  lemma SealsInv(b: Buffer, c: Buffer, f: Ordinal, ids: set<Ordinal>, now: Time)
    requires BufferInv(b) && Sealable(b, f, now) && Seals(b, c, f, ids)
    ensures BufferInv(c)
  {
    forall i | 0 <= i < |c.items| ensures ItemRow(c, i) {
      assert ItemRow(b, i) && ItemRow(b, f) && SealedRow(b, c, f, ids, i);
      assert f in b.batches ==> BatchRow(b, f);
    }
    forall i, j ensures PairRow(c, i, j) {
      SealPair(b, c, f, ids, now, i, j);
    }
    forall g | g in c.batches ensures BatchRow(c, g) {
      SealBatch(b, c, f, ids, now, g);
    }
    forall g, h ensures OrderRow(c, g, h) {
      SealOrder(b, c, f, ids, now, g, h);
    }
    forall i | i in Backlog(c) ensures i in Backlog(b) {
      assert SealedRow(b, c, f, ids, i) && ItemRow(b, i);
      assert f in b.batches ==> BatchRow(b, f);
    }
    SubsetSize(Backlog(c), Backlog(b));
  }

  lemma SealAtInv(b: Buffer, f: Ordinal, now: Time)
    requires BufferInv(b) && Sealable(b, f, now)
    ensures BufferInv(SealAt(b, f, now))
  {
    SealAtSeals(b, f, now);
    SealsInv(b, SealAt(b, f, now), f,
             Select(b.items, b.items[f].partition, b.items[f].policy, f, b.items[f].policy.batchSize), now);
  }

  // ---------------------------------------------------------------- proofs: the other steps

  /** A change of batches and roots that neither reopens a batch nor gives a failed one a root. */
  predicate Progress(b: Buffer, c: Buffer, f: Ordinal) {
    && f in b.batches && f in c.batches
    && c.batches[f] == b.batches[f].(retryAt := c.batches[f].retryAt, state := c.batches[f].state)
    && (c.batches[f].state == Submitted ==> f in c.roots)
    && (c.batches[f].state == BatchFailed ==> f !in c.roots && c.batches[f].deadline <= c.clock)
    && (OpenBatch(c, f) ==> OpenBatch(b, f))
  }

  lemma ProgressInv(b: Buffer, c: Buffer)
    requires BufferInv(b) && c.items == b.items && c.batches.Keys == b.batches.Keys && c.maxPending == b.maxPending
    requires c.roots.Keys <= c.batches.Keys
    requires forall f {:trigger Progress(b, c, f)} :: f in b.batches ==> Progress(b, c, f)
    ensures BufferInv(c)
  {
    forall i | 0 <= i < |c.items| ensures ItemRow(c, i) {
      assert ItemRow(b, i);
      assert c.items[i].batch.Some? ==> Progress(b, c, c.items[i].batch.value);
    }
    forall i, j ensures PairRow(c, i, j) {
      assert PairRow(b, i, j);
    }
    forall f | f in c.batches ensures BatchRow(c, f) {
      assert BatchRow(b, f) && Progress(b, c, f);
      assert Members(c, f) == Members(b, f);
    }
    forall f, g ensures OrderRow(c, f, g) {
      assert OrderRow(b, f, g);
      assert f in b.batches ==> Progress(b, c, f);
      assert g in b.batches ==> Progress(b, c, g);
    }
    forall i | i in Backlog(c) ensures i in Backlog(b) {
      assert ItemRow(b, i);
      assert c.items[i].batch.Some? ==> Progress(b, c, c.items[i].batch.value) && BatchRow(b, c.items[i].batch.value);
    }
    SubsetSize(Backlog(c), Backlog(b));
  }

  lemma DispatchInv(b: Buffer, step: Step, now: Time)
    requires BufferInv(b) && Enabled(b, step, now)
    requires step.DoSubmit? || step.DoAcknowledge? || step.DoDefer? || step.DoEnd?
    ensures BufferInv(Do(b, step, now))
  {
    var c := Do(b, step, now);
    forall f | f in b.batches ensures Progress(b, c, f) {
      assert BatchRow(b, f);
    }
    ProgressInv(b, c);
  }

  lemma AppendInv(b: Buffer, item: Item, delay: nat, limits: Option<Limits>, now: Time)
    requires BufferInv(b)
    ensures BufferInv(Append(b, item, delay, limits, now).0)
  {
    var c := Append(b, item, delay, limits, now).0;
    if c != b {
      forall i | 0 <= i < |c.items| ensures ItemRow(c, i) {
        assert i < |b.items| ==> ItemRow(b, i);
      }
      forall i, j ensures PairRow(c, i, j) {
        assert PairRow(b, i, j);
      }
      forall f | f in c.batches ensures BatchRow(c, f) {
        assert BatchRow(b, f);
        assert Members(c, f) == Members(b, f);
      }
      forall f, g ensures OrderRow(c, f, g) {
        assert OrderRow(b, f, g);
      }
      SubsetSize(Backlog(c), Backlog(b) + {|b.items|});
    }
  }

  lemma TickInv(b: Buffer, now: Time)
    requires BufferInv(b) && b.clock <= now
    ensures BufferInv(b.(clock := now))
  {
    var c := b.(clock := now);
    forall f | f in b.batches ensures Progress(b, c, f) {
      assert BatchRow(b, f);
    }
    ProgressInv(b, c);
  }

  lemma StepInv(b: Buffer, step: Step, now: Time)
    requires BufferInv(b) && Enabled(b, step, now)
    ensures BufferInv(Do(b, step, now))
  {
    TickInv(b, now);
    match step
    case DoAppend(item, delay, limits) => AppendInv(b.(clock := now), item, delay, limits, now);
    case DoSeal(f) => SealAtInv(b.(clock := now), f, now);
    case _ => DispatchInv(b, step, now);
  }

  // ---------------------------------------------------------------- whole runs

  predicate Start(b: Buffer) {
    b.items == [] && b.batches == map[] && b.roots == map[]
  }

  ghost predicate IsBufferRun(run: seq<Buffer>, steps: seq<Step>, times: seq<Time>) {
    && |run| == |steps| + 1 == |times| + 1
    && Start(run[0])
    && forall k: nat {:trigger Taken(run, steps, times, k)} :: k < |steps| ==> Taken(run, steps, times, k)
  }

  /** Step `k` leads from state `k` to the next. */
  ghost predicate Taken(run: seq<Buffer>, steps: seq<Step>, times: seq<Time>, k: nat) {
    && k < |steps| && k < |times| && k + 1 < |run|
    && Enabled(run[k], steps[k], times[k]) && run[k + 1] == Do(run[k], steps[k], times[k])
  }

  lemma {:induction false} BufferRunInvariant(run: seq<Buffer>, steps: seq<Step>, times: seq<Time>, k: nat)
    requires IsBufferRun(run, steps, times) && k < |run|
    ensures BufferInv(run[k])
    decreases k
  {
    if k > 0 {
      BufferRunInvariant(run, steps, times, k - 1);
      assert Taken(run, steps, times, k - 1);
      StepInv(run[k - 1], steps[k - 1], times[k - 1]);
    } else {
      assert Backlog(run[0]) == {};
    }
  }

  /** At most one workflow of a partition runs, and every older batch of the partition is over. */
  lemma OneAtATime(run: seq<Buffer>, steps: seq<Step>, times: seq<Time>, k: nat, f: Ordinal, g: Ordinal)
    requires IsBufferRun(run, steps, times) && k < |run| && RunningRoot(run[k], f)
    requires g in run[k].batches && f in run[k].batches && run[k].batches[g].partition == run[k].batches[f].partition
    ensures RunningRoot(run[k], g) ==> g == f
    ensures g < f ==> !OpenBatch(run[k], g) && (g in run[k].roots ==> run[k].roots[g] != Running)
    ensures f < g ==> !OpenBatch(run[k], f)
  {
    BufferRunInvariant(run, steps, times, k);
    assert OrderRow(run[k], f, g) && OrderRow(run[k], g, f) && BatchRow(run[k], f) && BatchRow(run[k], g);
  }

  /**
   Acceptance order: what was accepted first is sealed first, in batches of one policy
   and bounded size without gaps.
   */
  lemma SealedInOrder(run: seq<Buffer>, steps: seq<Step>, times: seq<Time>, k: nat, i: Ordinal, j: Ordinal, l: Ordinal)
    requires IsBufferRun(run, steps, times) && k < |run| && i <= j <= l < |run[k].items|
    requires run[k].items[i].partition == run[k].items[j].partition == run[k].items[l].partition
    requires run[k].items[l].batch.Some?
    ensures run[k].items[i].batch.Some? && run[k].items[j].batch.Some?
    ensures run[k].items[i].batch.value <= run[k].items[j].batch.value <= run[k].items[l].batch.value
    ensures run[k].items[i].batch == run[k].items[l].batch ==>
      run[k].items[j].batch == run[k].items[i].batch && run[k].items[j].policy == run[k].items[i].policy
    ensures var f := run[k].items[l].batch.value;
      f in run[k].batches && |Members(run[k], f)| <= run[k].batches[f].policy.batchSize
        && run[k].items[l].policy == run[k].batches[f].policy
  {
    BufferRunInvariant(run, steps, times, k);
    assert PairRow(run[k], i, j) && PairRow(run[k], j, l) && PairRow(run[k], i, l);
    assert ItemRow(run[k], i) && ItemRow(run[k], j) && ItemRow(run[k], l);
    assert BatchRow(run[k], run[k].items[l].batch.value);
  }

  /** Every pick was the next one to take. */
  ghost predicate Picks(b: Buffer, picks: seq<Ordinal>, now: Time)
    decreases |picks|
  {
    picks == [] || (Picks(b, picks[..|picks| - 1], now)
                    && Next(SealAll(b, picks[..|picks| - 1], now), picks[|picks| - 1], now))
  }

  /** Each batch of one call of `seal` is a step of its own. */
  lemma {:induction false} SealAllInv(b: Buffer, picks: seq<Ordinal>, now: Time)
    requires BufferInv(b) && Picks(b, picks, now)
    ensures BufferInv(SealAll(b, picks, now))
    decreases |picks|
  {
    if picks != [] {
      SealAllInv(b, picks[..|picks| - 1], now);
      SealAtInv(SealAll(b, picks[..|picks| - 1], now), picks[|picks| - 1], now);
    }
  }

  /** What one step keeps: items and their batches, the ends of runs, and failed batches. */
  predicate Keeps(b: Buffer, c: Buffer) {
    && |b.items| <= |c.items| && b.clock <= c.clock
    && (forall i :: 0 <= i < |b.items| && b.items[i].batch.Some? ==> c.items[i] == b.items[i])
    && (forall f :: f in b.batches ==> f in c.batches && c.batches[f].deadline == b.batches[f].deadline)
    && (forall f :: f in b.batches && b.batches[f].state == BatchFailed ==> c.batches[f].state == BatchFailed)
    && (forall f :: f in b.roots ==> f in c.roots && (b.roots[f] != Running ==> c.roots[f] == b.roots[f]))
  }

  lemma SealAtKeeps(b: Buffer, f: Ordinal, now: Time)
    requires BufferInv(b) && Sealable(b, f, now)
    ensures Keeps(b, SealAt(b, f, now))
  {
    var first, c := b.items[f], SealAt(b, f, now);
    var ids := Select(b.items, first.partition, first.policy, f, first.policy.batchSize);
    SealAtSeals(b, f, now);
    assert f in b.batches ==> BatchRow(b, f);
    forall i | 0 <= i < |b.items| && b.items[i].batch.Some? ensures c.items[i] == b.items[i] {
      assert SealedRow(b, c, f, ids, i);
    }
  }

  lemma StepKeeps(b: Buffer, step: Step, now: Time)
    requires BufferInv(b) && Enabled(b, step, now)
    ensures Keeps(b, Do(b, step, now))
  {
    if step.DoSeal? {
      TickInv(b, now);
      SealAtKeeps(b.(clock := now), step.f, now);
    }
  }

  /** A sealed item never changes its batch, an ended run never its end, and a failed batch never gets a root. */
  lemma {:induction false} SealedForGood(run: seq<Buffer>, steps: seq<Step>, times: seq<Time>, j: nat, k: nat,
                                         f: Ordinal)
    requires IsBufferRun(run, steps, times) && j <= k < |run|
    ensures Keeps(run[j], run[k])
    ensures f in run[j].batches && run[j].batches[f].state == BatchFailed ==> f !in run[k].roots
    decreases k
  {
    BufferRunInvariant(run, steps, times, k);
    if j < k {
      SealedForGood(run, steps, times, j, k - 1, f);
      BufferRunInvariant(run, steps, times, k - 1);
      assert Taken(run, steps, times, k - 1);
      StepKeeps(run[k - 1], steps[k - 1], times[k - 1]);
    }
    assert f in run[k].batches ==> BatchRow(run[k], f);
  }

  /** An acceptance key names one item: repeating a submission returns it and adds nothing. */
  lemma {:induction false} LookupKey(items: seq<Item>, tenant: TenantId, key: nat)
    ensures match Lookup(items, tenant, key)
            case Some(i) => i < |items| && items[i].tenant == tenant && items[i].key == key
            case None => forall i :: 0 <= i < |items| ==> !(items[i].tenant == tenant && items[i].key == key)
  {
    if items != [] {
      LookupKey(items[..|items| - 1], tenant, key);
    }
  }

  lemma AppendOnce(b: Buffer, item: Item, delay: nat, limits: Option<Limits>, now: Time, again: Time)
    requires Append(b, item, delay, limits, now).1.AcceptedAs?
    ensures var (c, r) := Append(b, item, delay, limits, now);
      && r.id < |c.items| && c.items[r.id].key == item.key && c.items[r.id].tenant == item.tenant
      && Append(c, item, delay, limits, again) == (c, r)
      && (c == b || (c.items == b.items + [c.items[|b.items|]]
                     && forall i :: 0 <= i < |b.items|
                                    ==> !(b.items[i].tenant == item.tenant && b.items[i].key == item.key)))
  {
    LookupKey(b.items, item.tenant, item.key);
    var c := Append(b, item, delay, limits, now).0;
    if c != b {
      assert c.items[..|c.items| - 1] == b.items;
    }
  }

  // ---------------------------------------------------------------- the tables

  lemma PicksMore(b: Buffer, picks: seq<Ordinal>, f: Ordinal, now: Time)
    requires Picks(b, picks, now) && Next(SealAll(b, picks, now), f, now)
    ensures Picks(b, picks + [f], now) && SealAll(b, picks + [f], now) == SealAt(SealAll(b, picks, now), f, now)
  {
    assert (picks + [f])[..|picks|] == picks;
  }

  class Submissions {
    const maxPending: nat
    var items: seq<Item>
    var batches: map<Ordinal, Batch>
    var roots: map<Ordinal, RunState>
    var clock: Time

    function State(): Buffer
      reads this
    {
      Buffer(items, batches, roots, clock, maxPending)
    }

    constructor (maxPending: nat)
      ensures Start(State()) && this.maxPending == maxPending
    {
      this.maxPending := maxPending;
      items, batches, roots, clock := [], map[], map[], 0;
    }

    /** `append`. */
    method Accept(item: Item, delay: nat, limits: Option<Limits>, now: Time) returns (r: Accepted)
      modifies this`items
      ensures (State(), r) == Append(old(State()), item, delay, limits, now)
    {
      match Lookup(items, item.tenant, item.key) {
        case Some(i) =>
          return if i < |items| && (items[i].input != item.input || items[i].partition != item.partition) then Clash
            else AcceptedAs(i);
        case None =>
      }
      if limits.None? || item.policy.batchSize > limits.value.maxBatch || delay > limits.value.maxDelay
         || item.policy.batchSize == 0 {
        return Refused(false);
      }
      var backlog := Backlog(State());
      var ofTenant := set i | i in backlog && items[i].tenant == item.tenant;
      var ofPartition := set i | i in backlog && items[i].partition == item.partition;
      if |backlog| >= maxPending || |ofTenant| >= limits.value.maxPerTenant
          || |ofPartition| >= limits.value.maxPerPartition {
        return Refused(true);
      }
      items := items + [item.(due := now + delay, batch := None)];
      return AcceptedAs(|items| - 1);
    }

    /** The first query of `seal`. */
    method FindNext(now: Time) returns (next: Option<Ordinal>)
      ensures match next
              case None => forall j :: !Sealable(State(), j, now)
              case Some(f) => Next(State(), f, now)
    {
      next := None;
      for k := 0 to |items|
        invariant next.Some? ==> next.value < k && Sealable(State(), next.value, now)
        invariant forall j :: 0 <= j < k && Sealable(State(), j, now) ==> next.Some? && Earlier(State(), next.value, j)
      {
        if Sealable(State(), k, now) && (next.None? || items[k].due < items[next.value].due) {
          next := Some(k);
        }
      }
    }

    /** The candidate loop of `seal`: consecutive unsealed items of one policy, up to the batch size. */
    method Collect(f: Ordinal) returns (selected: set<Ordinal>)
      requires f < |items|
      ensures selected == Select(items, items[f].partition, items[f].policy, f, items[f].policy.batchSize)
    {
      var first := items[f];
      selected := {};
      var k, room := f, first.policy.batchSize;
      while k < |items| && room > 0
        invariant f <= k <= |items|
        invariant selected + Select(items, first.partition, first.policy, k, room)
               == Select(items, first.partition, first.policy, f, first.policy.batchSize)
        decreases |items| - k
      {
        if items[k].partition == first.partition && items[k].batch.None? {
          if items[k].policy != first.policy {
            return;
          }
          selected, room := selected + {k}, room - 1;
        }
        k := k + 1;
      }
    }

    /** `seal`: at most `limit` new batches, each of the items that are next in line. */
    method Seal(limit: nat, now: Time) returns (picks: seq<Ordinal>)
      modifies this`items, this`batches
      ensures |picks| <= limit && Picks(old(State()), picks, now) && State() == SealAll(old(State()), picks, now)
      ensures |picks| == limit || forall j :: !Sealable(State(), j, now)
    {
      picks := [];
      while |picks| < limit
        invariant |picks| <= limit && Picks(old(State()), picks, now) && State() == SealAll(old(State()), picks, now)
        decreases limit - |picks|
      {
        var next := FindNext(now);
        if next.None? {
          return;
        }
        PicksMore(old(State()), picks, next.value, now);
        SealNext(next.value, now);
        picks := picks + [next.value];
      }
    }

    /** The body of the loop of `seal`: insert the batch, then assign it to its items. */
    method SealNext(f: Ordinal, now: Time)
      requires f < |items|
      modifies this`items, this`batches
      ensures State() == SealAt(old(State()), f, now)
    {
      var selected := Collect(f);
      batches := batches[f := Batch(items[f].partition, items[f].policy, now + items[f].policy.duration, now,
                                    Preparing)];
      items := Assigned(items, selected, f);
    }

    /** `submit_run` for a batch. */
    method SubmitRun(f: Ordinal, now: Time)
      modifies this`roots
      ensures State() == Submit(old(State()), f, now)
    {
      if f in batches && f !in roots && batches[f].deadline > now {
        roots := roots[f := Running];
      }
    }

    /** The last update of `dispatch`. */
    method MarkSubmitted(f: Ordinal)
      modifies this`batches
      ensures State() == Acknowledge(old(State()), f)
    {
      if f in batches && batches[f].state == Preparing {
        batches := batches[f := batches[f].(state := Submitted)];
      }
    }

    /** The update of `tick` when a dispatch failed. */
    method Postpone(f: Ordinal, now: Time)
      modifies this`batches
      ensures State() == Defer(old(State()), f, now)
    {
      if f in batches && batches[f].state == Preparing {
        var failed := batches[f].deadline <= now && f !in roots;
        batches := batches[f := batches[f].(retryAt := now + 10, state := if failed then BatchFailed else Preparing)];
      }
    }
  }
}
