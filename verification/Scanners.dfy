/**
 The incremental scanners of event streams: one cuts a stream into frames at
 empty lines, one looks for an end marker in complete lines.  Both keep a
 bounded remainder between chunks, and neither depends on how the bytes were
 chunked.  Streams follow section 9.2.5 of the WHATWG HTML standard, read with
 line feeds only.
 */
module Scanners {
  import opened Ledger

  type Bytes = seq<bv8>

  const LINE: Bytes := [10]
  const FRAME: Bytes := [10, 10]

  /** The largest remainder kept between chunks. */
  const BOUND := 1024 * 1024

  // ---------------------------------------------------------------- cutting a whole stream

  predicate Occurs(s: Bytes, d: Bytes, i: nat) {
    i + |d| <= |s| && s[i..i + |d|] == d
  }

  function FindFrom(s: Bytes, d: Bytes, i: nat): Option<nat>
    decreases |s| - i
  {
    if i + |d| > |s| || i >= |s| then None
    else if Occurs(s, d, i) then Some(i)
    else FindFrom(s, d, i + 1)
  }

  /** The first place of the delimiter `d`. */
  function Find(s: Bytes, d: Bytes): Option<nat> {
    FindFrom(s, d, 0)
  }

  lemma {:induction false} FindFromFirst(s: Bytes, d: Bytes, i: nat)
    requires d != []
    ensures match FindFrom(s, d, i)
            case None => forall j: nat :: i <= j ==> !Occurs(s, d, j)
            case Some(k) => i <= k && Occurs(s, d, k) && forall j: nat :: i <= j < k ==> !Occurs(s, d, j)
    decreases |s| - i
  {
    if i + |d| <= |s| && !Occurs(s, d, i) {
      FindFromFirst(s, d, i + 1);
    }
  }

  lemma FindFirst(s: Bytes, d: Bytes)
    requires d != []
    ensures match Find(s, d)
            case None => forall j: nat :: !Occurs(s, d, j)
            case Some(i) => Occurs(s, d, i) && forall j: nat :: j < i ==> !Occurs(s, d, j)
  {
    FindFromFirst(s, d, 0);
  }

  lemma FirstUnique(s: Bytes, d: Bytes, i: nat)
    requires d != [] && Occurs(s, d, i) && forall j: nat :: j < i ==> !Occurs(s, d, j)
    ensures Find(s, d) == Some(i)
  {
    FindFirst(s, d);
  }

  /** All complete pieces, and the remainder. */
  function Cut(s: Bytes, d: Bytes): (seq<Bytes>, Bytes)
    requires d != []
    decreases |s|
  {
    match Find(s, d)
    case None => ([], s)
    case Some(i) =>
      if i + |d| > |s| then ([], s) else
        var (pieces, rest) := Cut(s[i + |d|..], d);
        ([s[..i]] + pieces, rest)
  }

  /** More bytes do not move the first delimiter. */
  lemma FindAppend(a: Bytes, b: Bytes, d: Bytes)
    requires d != [] && Find(a, d).Some?
    ensures Find(a + b, d) == Find(a, d) && Find(a, d).value + |d| <= |a|
  {
    FindFirst(a, d);
    var i := Find(a, d).value;
    assert (a + b)[i..i + |d|] == a[i..i + |d|];
    forall j: nat | j < i ensures !Occurs(a + b, d, j) {
      assert (a + b)[j..j + |d|] == a[j..j + |d|];
      assert !Occurs(a, d, j);
    }
    FirstUnique(a + b, d, i);
  }

  lemma SplitsAlike(a: Bytes, b: Bytes, i: nat, j: nat)
    requires i <= j <= |a|
    ensures (a + b)[..i] == a[..i] && (a + b)[j..] == a[j..] + b
  {
  }

  lemma Regroup(x: seq<Bytes>, y: seq<Bytes>, z: seq<Bytes>)
    ensures x + (y + z) == (x + y) + z
  {
  }

  lemma {:induction false} CutFound(s: Bytes, d: Bytes, i: nat, tail: Bytes)
    requires d != [] && Find(s, d) == Some(i) && i + |d| <= |s| && tail == s[i + |d|..]
    ensures Cut(s, d).0 == [s[..i]] + Cut(tail, d).0 && Cut(s, d).1 == Cut(tail, d).1
  {
  }

  lemma {:induction false} CutAppend(a: Bytes, b: Bytes, d: Bytes)
    requires d != []
    ensures var (pieces, rest) := Cut(a, d);
      var (more, last) := Cut(rest + b, d);
      Cut(a + b, d) == (pieces + more, last)
    decreases |a|
  {
    if Find(a, d).Some? {
      FindAppend(a, b, d);
      var i := Find(a, d).value;
      var tail := a[i + |d|..];
      SplitsAlike(a, b, i, i + |d|);
      CutFound(a, d, i, tail);
      CutFound(a + b, d, i, tail + b);
      CutAppend(tail, b, d);
      Regroup([a[..i]], Cut(tail, d).0, Cut(Cut(tail, d).1 + b, d).0);
    } else {
      assert [] + Cut(a + b, d).0 == Cut(a + b, d).0;
    }
  }

  /** A remainder holds no delimiter. */
  lemma {:induction false} CutRest(s: Bytes, d: Bytes)
    requires d != []
    ensures Find(Cut(s, d).1, d).None?
    decreases |s|
  {
    FindFirst(s, d);
    if Find(s, d).Some? {
      CutRest(s[Find(s, d).value + |d|..], d);
    }
  }

  /** Pieces with their delimiters. */
  function Joined(pieces: seq<Bytes>, d: Bytes): Bytes {
    if pieces == [] then [] else pieces[0] + d + Joined(pieces[1..], d)
  }

  /** Cutting loses nothing, and no piece holds a delimiter. */
  lemma {:induction false} CutRebuilds(s: Bytes, d: Bytes)
    requires d != []
    ensures s == Joined(Cut(s, d).0, d) + Cut(s, d).1
    ensures forall i :: 0 <= i < |Cut(s, d).0| ==> Find(Cut(s, d).0[i], d).None?
    decreases |s|
  {
    if Find(s, d).Some? {
      var i := Find(s, d).value;
      FindFirst(s, d);
      var tail := s[i + |d|..];
      CutFound(s, d, i, tail);
      CutRebuilds(tail, d);
      var pieces := Cut(s, d).0;
      assert pieces[1..] == Cut(tail, d).0;
      SplitsAt(s, i, i + |d|);
      Regrouped(s[..i], d, Joined(pieces[1..], d), Cut(s, d).1);
      OccursTake(s, d, i);
      FindFirst(s[..i], d);
    }
  }

  lemma SplitsAt(s: Bytes, i: nat, j: nat)
    requires i <= j <= |s|
    ensures s == s[..i] + s[i..j] + s[j..]
  {
  }

  lemma Regrouped(x: Bytes, d: Bytes, y: Bytes, z: Bytes)
    ensures x + d + (y + z) == (x + d + y) + z
  {
  }

  // ---------------------------------------------------------------- scanning chunk by chunk

  function Concat(chunks: seq<Bytes>): Bytes {
    if chunks == [] then [] else Concat(chunks[..|chunks| - 1]) + chunks[|chunks| - 1]
  }

  /** The first `n` chunks leave no remainder that is too long. */
  predicate Within(chunks: seq<Bytes>, d: Bytes, n: nat, bound: nat)
    requires d != []
  {
    forall m :: 0 < m <= n && m <= |chunks| ==> |Cut(Concat(chunks[..m]), d).1| <= bound
  }

  /** Some chunk leaves a remainder that is too long. */
  predicate Overflows(chunks: seq<Bytes>, d: Bytes, bound: nat)
    requires d != []
  {
    !Within(chunks, d, |chunks|, bound)
  }

  /** Every piece and the remainder are within the bound, counting what may be seen of the delimiter. */
  predicate Bounded(s: Bytes, d: Bytes, bound: nat)
    requires d != []
  {
    var (pieces, rest) := Cut(s, d);
    (forall i :: 0 <= i < |pieces| ==> |pieces[i]| + |d| - 1 <= bound) && |rest| <= bound
  }

  /** A prefix has the delimiter where the stream has it, as far as it goes. */
  lemma {:induction false} OccursTake(s: Bytes, d: Bytes, k: nat)
    requires k <= |s|
    ensures forall j: nat :: Occurs(s[..k], d, j) <==> j + |d| <= k && Occurs(s, d, j)
  {
    forall j: nat ensures Occurs(s[..k], d, j) <==> j + |d| <= k && Occurs(s, d, j) {
      if j + |d| <= k {
        assert s[..k][j..j + |d|] == s[j..j + |d|];
      }
    }
  }

  lemma {:induction false} PrefixBounded(p: Bytes, t: Bytes, d: Bytes, bound: nat)
    requires d != [] && Bounded(p + t, d, bound)
    ensures |Cut(p, d).1| <= bound
  {
    var (pieces, rest) := Cut(p, d);
    var (more, last) := Cut(rest + t, d);
    CutAppend(p, t, d);
    CutRest(p, d);
    FindFirst(rest, d);
    FindFirst(rest + t, d);
    OccursTake(rest + t, d, |rest|);
    assert (rest + t)[..|rest|] == rest;
    match Find(rest + t, d)
    case None =>
    case Some(i) =>
      assert (pieces + more)[|pieces|] == more[0] == (rest + t)[..i];
  }

  lemma {:induction false} ConcatSplit(chunks: seq<Bytes>, k: nat)
    requires k <= |chunks|
    ensures Concat(chunks) == Concat(chunks[..k]) + Concat(chunks[k..])
    decreases |chunks|
  {
    if k == |chunks| {
      assert chunks[..k] == chunks;
    } else {
      var init := chunks[..|chunks| - 1];
      ConcatSplit(init, k);
      assert init[..k] == chunks[..k];
      assert chunks[k..][..|chunks| - k - 1] == init[k..];
    }
  }

  /** A stream overflows under no chunking exactly when its pieces are within the bound. */
  lemma {:induction false} NeverOverflowsIffBounded(s: Bytes, d: Bytes, bound: nat)
    requires d != []
    ensures Bounded(s, d, bound) <==> forall chunks :: Concat(chunks) == s ==> !Overflows(chunks, d, bound)
  {
    if Bounded(s, d, bound) {
      forall chunks | Concat(chunks) == s ensures !Overflows(chunks, d, bound) {
        forall k | 0 < k <= |chunks| ensures |Cut(Concat(chunks[..k]), d).1| <= bound {
          ConcatSplit(chunks, k);
          PrefixBounded(Concat(chunks[..k]), Concat(chunks[k..]), d, bound);
        }
      }
    } else {
      var chunks := OverflowingChunks(s, d, bound);
    }
  }

  /** Deliver a piece that is too long without the end of its delimiter, and the scan overflows. */
  lemma {:induction false} OverflowingChunks(s: Bytes, d: Bytes, bound: nat) returns (chunks: seq<Bytes>)
    requires d != [] && !Bounded(s, d, bound)
    ensures Concat(chunks) == s && Overflows(chunks, d, bound)
  {
    var (pieces, rest) := Cut(s, d);
    if |rest| > bound {
      chunks := [s];
      assert chunks[..1] == [s] && Concat([s]) == s;
    } else {
      var i :| 0 <= i < |pieces| && |pieces[i]| + |d| - 1 > bound;
      var k := LongPrefix(s, d, i);
      chunks := [s[..k], s[k..]];
      assert chunks[..1] == [s[..k]] && Concat([s[..k]]) == s[..k];
      assert Concat(chunks) == s[..k] + s[k..] == s;
    }
  }

  /** The first delimiter is found in any prefix that holds it. */
  lemma {:induction false} FindTake(s: Bytes, d: Bytes, k: nat)
    requires d != [] && Find(s, d).Some? && Find(s, d).value + |d| <= k <= |s|
    ensures Find(s[..k], d) == Find(s, d)
  {
    FindFirst(s, d);
    OccursTake(s, d, k);
    FirstUnique(s[..k], d, Find(s, d).value);
  }

  /** One byte short of the first delimiter there is none. */
  lemma {:induction false} FindShort(s: Bytes, d: Bytes)
    requires d != [] && Find(s, d).Some?
    ensures Find(s, d).value + |d| <= |s| && Find(s[..Find(s, d).value + |d| - 1], d).None?
  {
    FindFirst(s, d);
    var k := Find(s, d).value + |d| - 1;
    OccursTake(s, d, k);
    FindFirst(s[..k], d);
  }

  /** The stream up to the last byte of the delimiter after piece `i` leaves that piece as its remainder. */
  lemma {:induction false} LongPrefix(s: Bytes, d: Bytes, i: nat) returns (k: nat)
    requires d != [] && i < |Cut(s, d).0|
    ensures k <= |s| && |Cut(s[..k], d).1| == |Cut(s, d).0[i]| + |d| - 1
    decreases |s|
  {
    var n := FirstPrefix(s, d);
    if i == 0 {
      k := n - 1;
    } else {
      var l := LongPrefix(s[n..], d, i - 1);
      k := n + l;
      LongerPrefix(s, d, l);
    }
  }

  lemma {:induction false} FirstPrefix(s: Bytes, d: Bytes) returns (n: nat)
    requires d != [] && Cut(s, d).0 != []
    ensures |d| <= n <= |s| && Find(s, d) == Some(n - |d|)
    ensures |Cut(s[..n - 1], d).1| == n - 1 && |Cut(s, d).0[0]| == n - |d|
    ensures Cut(s, d).0[1..] == Cut(s[n..], d).0
  {
    FindShort(s, d);
    n := Find(s, d).value + |d|;
    CutFound(s, d, n - |d|, s[n..]);
    assert Cut(s[..n - 1], d) == ([], s[..n - 1]);
  }

  lemma {:induction false} LongerPrefix(s: Bytes, d: Bytes, l: nat)
    requires d != [] && Find(s, d).Some? && Find(s, d).value + |d| + l <= |s|
    ensures var n := Find(s, d).value + |d|; Cut(s[..n + l], d).1 == Cut(s[n..][..l], d).1
  {
    var n := Find(s, d).value + |d|;
    var p, x := s[..n], s[n..][..l];
    assert s[..n + l] == p + x;
    NothingRests(s, d);
    CutAfter(p, x, d);
  }

  lemma {:induction false} CutAfter(p: Bytes, x: Bytes, d: Bytes)
    requires d != [] && Cut(p, d).1 == []
    ensures Cut(p + x, d).1 == Cut(x, d).1
  {
    CutAppend(p, x, d);
    assert [] + x == x;
  }

  /** The stream up to the end of the first delimiter leaves no remainder. */
  lemma {:induction false} NothingRests(s: Bytes, d: Bytes)
    requires d != [] && Find(s, d).Some? && Find(s, d).value + |d| <= |s|
    ensures Cut(s[..Find(s, d).value + |d|], d).1 == []
  {
    var n := Find(s, d).value + |d|;
    FindTake(s, d, n);
    assert s[..n][n..] == [];
    CutFound(s[..n], d, n - |d|, []);
  }

  // ---------------------------------------------------------------- the frame splitter

  datatype ComputeState = NotSent | Sent | Unknown | Terminated

  /** What is known about the attempt that answers, and what a control frame says about it. */
  datatype Facts = Facts(attempt: Option<nat>, compute: Option<ComputeState>)

  function Learned(known: Facts, news: Facts): Facts {
    Facts(if news.attempt.Some? then news.attempt else known.attempt,
          if news.compute.Some? then news.compute else known.compute)
  }

  /**
   What the splitter does with a frame: pass it on, which may be the end of the
   answer; drop a control frame; observe it, and perhaps raise what it says; or
   raise because it cannot be read.
   */
  datatype Kind = Forward(done: bool) | Drop | Observe(news: Facts) | ObserveAndRaise(news: Facts) | Unreadable

  datatype Delivered = Delivered(forwarded: seq<Bytes>, observed: seq<Bytes>, raised: bool, known: Facts)

  /** What a consumer gets of one frame; the end of the answer counts for an attempt that is known. */
  function One(frame: Bytes, kind: Bytes -> Kind, known: Facts): Delivered {
    match kind(frame)
    case Forward(done) =>
      Delivered([frame], [], false,
                if done && known.attempt.Some? then known.(compute := Some(Terminated)) else known)
    case Drop => Delivered([], [], false, known)
    case Observe(news) => Delivered([], [frame], false, Learned(known, news))
    case ObserveAndRaise(news) => Delivered([], [frame], true, Learned(known, news))
    case Unreadable => Delivered([], [], true, known)
  }

  function Started(known: Facts): Delivered {
    Delivered([], [], false, known)
  }

  /** What comes after a delivery, unless it raised. */
  function Then(a: Delivered, b: Delivered): Delivered {
    if a.raised then a else Delivered(a.forwarded + b.forwarded, a.observed + b.observed, b.raised, b.known)
  }

  /** What a consumer gets of a sequence of frames. */
  function Deliver(frames: seq<Bytes>, kind: Bytes -> Kind, known: Facts): Delivered {
    if frames == [] then Started(known) else
      var first := One(frames[0], kind, known);
      Then(first, Deliver(frames[1..], kind, first.known))
  }

  /** The frames that some are kept of, in order. */
  function Filtered(frames: seq<Bytes>, keep: Bytes -> bool): (r: seq<Bytes>)
    ensures forall x :: x in r <==> x in frames && keep(x)
  {
    if frames == [] then [] else (if keep(frames[0]) then [frames[0]] else []) + Filtered(frames[1..], keep)
  }

  /** The first frame that raises, or all of them. */
  predicate StopsAfter(frames: seq<Bytes>, kind: Bytes -> Kind, n: nat) {
    && n <= |frames| && (forall i :: 0 <= i < n ==> !Raises(kind(frames[i])))
    && (n < |frames| ==> Raises(kind(frames[n])))
  }

  predicate Raises(k: Kind) {
    k.ObserveAndRaise? || k.Unreadable?
  }

  /**
   Exactly the frames of kind Forward are forwarded, and exactly the frames to be
   observed are observed, in order, up to the first frame that raises.
   */
  lemma {:induction false} DeliverDoes(frames: seq<Bytes>, kind: Bytes -> Kind, known: Facts, n: nat)
    requires StopsAfter(frames, kind, n)
    ensures var out, seen := Deliver(frames, kind, known), frames[..if n < |frames| then n + 1 else n];
      && out.raised == (n < |frames|)
      && out.forwarded == Filtered(frames[..n], f => kind(f).Forward?)
      && out.observed == Filtered(seen, f => kind(f).Observe? || kind(f).ObserveAndRaise?)
    decreases |frames|
  {
    if frames != [] {
      if n == 0 {
        assert frames[..1] == [frames[0]] && frames[..1][1..] == [];
      } else {
        var first := One(frames[0], kind, known);
        StopsLater(frames, kind, n);
        DeliverDoes(frames[1..], kind, first.known, n - 1);
        TakeTail(frames, n);
        if n < |frames| {
          TakeTail(frames, n + 1);
        }
      }
    }
  }

  lemma StopsLater(frames: seq<Bytes>, kind: Bytes -> Kind, n: nat)
    requires StopsAfter(frames, kind, n) && n > 0
    ensures StopsAfter(frames[1..], kind, n - 1)
  {
    forall i | 0 <= i < n - 1 ensures !Raises(kind(frames[1..][i])) {
      assert frames[1..][i] == frames[i + 1];
    }
  }

  lemma TakeTail(frames: seq<Bytes>, n: nat)
    requires 0 < n <= |frames|
    ensures frames[..n][1..] == frames[1..][..n - 1]
  {
  }

  /** What is known changes with the last frame: by what it says, or by the end of the answer of a known attempt. */
  lemma KnownDoes(frames: seq<Bytes>, last: Bytes, kind: Bytes -> Kind, known: Facts)
    requires !Deliver(frames, kind, known).raised
    ensures var was, after := Deliver(frames, kind, known).known, Deliver(frames + [last], kind, known).known;
      match kind(last)
      case Forward(done) =>
        after == if done && was.attempt.Some? then Facts(was.attempt, Some(Terminated)) else was
      case Drop => after == was
      case Unreadable => after == was
      case Observe(news) => TakesUp(was, news, after)
      case ObserveAndRaise(news) => TakesUp(was, news, after)
  {
    DeliverAppend(frames, [last], kind, known);
    assert [last][1..] == [];
  }

  /** News replaces what it speaks of and nothing else. */
  predicate TakesUp(was: Facts, news: Facts, after: Facts) {
    && after.attempt == (if news.attempt == None then was.attempt else news.attempt)
    && after.compute == (if news.compute == None then was.compute else news.compute)
  }

  lemma ThenAssociative(a: Delivered, b: Delivered, c: Delivered)
    ensures Then(Then(a, b), c) == Then(a, Then(b, c))
  {
  }

  lemma {:induction false} DeliverAppend(a: seq<Bytes>, b: seq<Bytes>, kind: Bytes -> Kind, known: Facts)
    ensures var first := Deliver(a, kind, known);
      Deliver(a + b, kind, known) == Then(first, Deliver(b, kind, first.known))
    decreases |a|
  {
    if a == [] {
      assert a + b == b;
    } else {
      assert (a + b)[1..] == a[1..] + b;
      var first := One(a[0], kind, known);
      DeliverAppend(a[1..], b, kind, first.known);
      var rest := Deliver(a[1..], kind, first.known);
      ThenAssociative(first, rest, Deliver(b, kind, rest.known));
    }
  }

  datatype Ending = Finished(rest: Bytes) | Raised | TooLong

  /** What a consumer gets of the complete frames of a stream. */
  function Received(stream: Bytes, kind: Bytes -> Kind, known: Facts): Delivered {
    Deliver(Cut(stream, FRAME).0, kind, known)
  }

  /** Chunk `n` is the first to leave a remainder that is too long. */
  predicate StopsAt(chunks: seq<Bytes>, n: nat) {
    0 < n <= |chunks| && Within(chunks, FRAME, n - 1, BOUND) && |Cut(Concat(chunks[..n]), FRAME).1| > BOUND
  }

  /** Chunk `n` completes the first frame that raises, and no remainder before it was too long. */
  predicate RaisesIn(chunks: seq<Bytes>, n: nat, kind: Bytes -> Kind, known: Facts) {
    && 0 < n <= |chunks| && Within(chunks, FRAME, n - 1, BOUND)
    && !Received(Concat(chunks[..n - 1]), kind, known).raised
    && Received(Concat(chunks[..n]), kind, known).raised
  }

  /** `pending.split(b"\\n\\n", 1)`. */
  method NextFrame(pending: Bytes) returns (raw: Bytes, rest: Bytes)
    requires Find(pending, FRAME).Some?
    ensures |rest| < |pending|
    ensures Cut(pending, FRAME) == ([raw] + Cut(rest, FRAME).0, Cut(rest, FRAME).1)
  {
    FindFirst(pending, FRAME);
    var i := Find(pending, FRAME).value;
    raw, rest := pending[..i], pending[i + 2..];
    CutFound(pending, FRAME, i, rest);
  }

  /** The inner loop of the splitter: deliver the complete frames of the pending bytes. */
  method Drain(bytes: Bytes, kind: Bytes -> Kind, known: Facts) returns (out: Delivered, rest: Bytes)
    ensures out == Received(bytes, kind, known)
    ensures !out.raised ==> rest == Cut(bytes, FRAME).1
  {
    var pending := bytes;
    out := Started(known);
    while Find(pending, FRAME).Some?
      invariant Received(bytes, kind, known) == Then(out, Received(pending, kind, out.known))
      invariant Cut(bytes, FRAME).1 == Cut(pending, FRAME).1 && !out.raised
      decreases |pending|
    {
      var raw;
      raw, pending := NextFrame(pending);
      assert ([raw] + Cut(pending, FRAME).0)[1..] == Cut(pending, FRAME).0;
      var next := One(raw, kind, out.known);
      ThenAssociative(out, next, Received(pending, kind, next.known));
      out := Then(out, next);
      if out.raised {
        rest := pending;
        return;
      }
    }
    rest := pending;
  }

  /**
   `_EvidenceStream.__aiter__`.  What is forwarded, observed and known of the
   attempt is that of the whole stream cut at once, however it was chunked; if a
   remainder is too long, it is that of the stream up to the first chunk that
   leaves one.
   */
  method SplitFrames(chunks: seq<Bytes>, kind: Bytes -> Kind, known: Facts) returns (out: Delivered, ending: Ending)
    ensures match ending
      case Finished(rest) =>
        out == Received(Concat(chunks), kind, known) && !out.raised && rest == Cut(Concat(chunks), FRAME).1
        && Within(chunks, FRAME, |chunks|, BOUND)
      case Raised => out == Received(Concat(chunks), kind, known) && exists n :: RaisesIn(chunks, n, kind, known)
      case TooLong =>
        exists n: nat :: StopsAt(chunks, n) && out == Received(Concat(chunks[..n]), kind, known) && !out.raised
  {
    var pending: Bytes := [];
    out := Started(known);
    for n := 0 to |chunks|
      invariant pending == Cut(Concat(chunks[..n]), FRAME).1
      invariant out == Received(Concat(chunks[..n]), kind, known) && !out.raised
      invariant Within(chunks, FRAME, n, BOUND)
    {
      ReceivedMore(chunks, n, kind, known);
      var more;
      more, pending := Drain(pending + chunks[n], kind, out.known);
      out := Then(out, more);
      if out.raised {
        RaisedForGood(chunks, n + 1, kind, known);
        assert RaisesIn(chunks, n + 1, kind, known);
        return out, Raised;
      }
      if |pending| > BOUND {
        assert StopsAt(chunks, n + 1);
        return out, TooLong;
      }
    }
    assert chunks[..|chunks|] == chunks;
    return out, Finished(pending);
  }

  /** One more chunk delivers the frames it completes. */
  lemma {:induction false} ReceivedMore(chunks: seq<Bytes>, n: nat, kind: Bytes -> Kind, known: Facts)
    requires n < |chunks|
    ensures var pending := Cut(Concat(chunks[..n]), FRAME).1 + chunks[n];
      var before := Received(Concat(chunks[..n]), kind, known);
      && Cut(Concat(chunks[..n + 1]), FRAME).1 == Cut(pending, FRAME).1
      && Received(Concat(chunks[..n + 1]), kind, known) == Then(before, Received(pending, kind, before.known))
  {
    assert chunks[..n + 1][..n] == chunks[..n];
    var (frames, rest) := Cut(Concat(chunks[..n]), FRAME);
    CutAppend(Concat(chunks[..n]), chunks[n], FRAME);
    DeliverAppend(frames, Cut(rest + chunks[n], FRAME).0, kind, known);
  }

  /** Nothing after a frame that raised is delivered. */
  lemma {:induction false} RaisedForGood(chunks: seq<Bytes>, n: nat, kind: Bytes -> Kind, known: Facts)
    requires n <= |chunks| && Received(Concat(chunks[..n]), kind, known).raised
    ensures Received(Concat(chunks), kind, known) == Received(Concat(chunks[..n]), kind, known)
  {
    ConcatSplit(chunks, n);
    CutAppend(Concat(chunks[..n]), Concat(chunks[n..]), FRAME);
    var (frames, rest) := Cut(Concat(chunks[..n]), FRAME);
    DeliverAppend(frames, Cut(rest + Concat(chunks[n..]), FRAME).0, kind, known);
  }

  // ---------------------------------------------------------------- the end marker

  /** Some complete line of the stream is the end marker; an unfinished last line does not count. */
  predicate Marked(s: Bytes, done: Bytes -> bool) {
    exists i :: 0 <= i < |Cut(s, LINE).0| && done(Cut(s, LINE).0[i])
  }

  /**
   The line scanner of `_attempt`: what it has seen is the marker of the whole
   stream, or of the chunks before the first one that leaves too long a remainder.
   */
  method ScanForMarker(chunks: seq<Bytes>, done: Bytes -> bool) returns (terminated: bool, tooLong: bool)
    ensures !tooLong ==> terminated == Marked(Concat(chunks), done) && Within(chunks, LINE, |chunks|, BOUND)
    ensures tooLong ==> exists n: nat ::
      n < |chunks| && Within(chunks, LINE, n, BOUND) && |Cut(Concat(chunks[..n + 1]), LINE).1| > BOUND
      && terminated == Marked(Concat(chunks[..n]), done)
  {
    var pending: Bytes := [];
    terminated := false;
    for n := 0 to |chunks|
      invariant pending == Cut(Concat(chunks[..n]), LINE).1
      invariant terminated == Marked(Concat(chunks[..n]), done)
      invariant Within(chunks, LINE, n, BOUND)
    {
      assert chunks[..n + 1][..n] == chunks[..n];
      CutAppend(Concat(chunks[..n]), chunks[n], LINE);
      var (lines, rest) := Cut(pending + chunks[n], LINE);
      MarkedMore(Cut(Concat(chunks[..n]), LINE).0, lines, done);
      pending := rest;
      if |pending| > BOUND {
        return terminated, true;
      }
      terminated := terminated || exists i :: 0 <= i < |lines| && done(lines[i]);
    }
    assert chunks[..|chunks|] == chunks;
    return terminated, false;
  }

  lemma MarkedMore(a: seq<Bytes>, b: seq<Bytes>, done: Bytes -> bool)
    ensures (exists i :: 0 <= i < |a + b| && done((a + b)[i])) <==>
      ((exists i :: 0 <= i < |a| && done(a[i])) || (exists i :: 0 <= i < |b| && done(b[i])))
  {
    if i :| 0 <= i < |a| && done(a[i]) {
      assert (a + b)[i] == a[i];
    }
    if i :| 0 <= i < |b| && done(b[i]) {
      assert (a + b)[|a| + i] == b[i];
    }
  }

  /** So the verdict on a stream of bounded lines is the same for every chunking. */
  lemma {:induction false} ChunkingIrrelevant(x: seq<Bytes>, y: seq<Bytes>, d: Bytes, bound: nat)
    requires d != [] && Concat(x) == Concat(y) && Bounded(Concat(x), d, bound)
    ensures !Overflows(x, d, bound) && !Overflows(y, d, bound) && Cut(Concat(x), d) == Cut(Concat(y), d)
  {
    NeverOverflowsIffBounded(Concat(x), d, bound);
  }
}
