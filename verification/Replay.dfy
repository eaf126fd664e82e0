/**
 Replay of a model leaf.  A leaf is pure sequential code that asks a model and
 goes on with what it gets; it may catch anything that is raised into it.  It is
 planned again and again on the answers recorded so far, each time up to its
 first new question.
 */
module Replay {
  import opened Ledger

  type Payload = nat
  type Failure = nat

  /** `owner` is false for a call from another task, `json` for a payload that is no JSON object. */
  datatype Request = Request(payload: Payload, tokens: int, owner: bool, json: bool)

  datatype Answer = Result(value: nat) | TerminalError(failure: Failure)

  /** What `invoke` returns or raises into the leaf. */
  datatype Reply = Got(answer: Answer) | Suspended | Violated

  datatype End = Returned(value: nat) | Suspends | Violates | Raises(failure: Failure)

  datatype Action = Finish(end: End) | Ask(request: Request)

  /** What a leaf does next depends on the replies it got; after `depth` of them it ends. */
  datatype Leaf = Leaf(act: seq<Reply> -> Action, depth: nat, last: End)

  function Move(leaf: Leaf, h: seq<Reply>): Action {
    if |h| < leaf.depth then leaf.act(h) else Finish(leaf.last)
  }

  /** The request digest stands for the request it is the digest of. */
  datatype Record = Record(request: Request, answer: Answer)

  datatype Port = Port(ordinal: nat, pending: Option<Request>, violation: bool)

  datatype Step = Done(value: nat) | Question(call: Option<Request>) | Broken | Propagates(failure: Failure)

  predicate Valid(q: Request) {
    q.owner && q.tokens > 0 && q.json
  }

  // ---------------------------------------------------------------- planning

  /** `ModelPort.invoke`. */
  function Invoke(records: seq<Record>, s: Port, q: Request): (Port, Reply) {
    if s.violation then (s, Violated)
    else if !q.owner || s.pending.Some? || q.tokens <= 0 || !q.json then (s.(violation := true), Violated)
    else if s.ordinal < |records| then
      if records[s.ordinal].request != q then (s.(violation := true), Violated)
      else (s.(ordinal := s.ordinal + 1), Got(records[s.ordinal].answer))
    else (s.(pending := Some(q)), Suspended)
  }

  /** The leaf run against a port, after the replies `h`. */
  function Run(leaf: Leaf, h: seq<Reply>, records: seq<Record>, s: Port): (Port, End)
    decreases leaf.depth - |h|
  {
    match Move(leaf, h)
    case Finish(end) => (s, end)
    case Ask(q) =>
      var (s', reply) := Invoke(records, s, q);
      Run(leaf, h + [reply], records, s')
  }

  const NEW_PORT := Port(0, None, false)

  /** What `plan_model_step` makes of the end of a run. */
  function Verdict(records: seq<Record>, s: Port, end: End): Step {
    match end
    case Suspends => if s.violation then Broken else Question(s.pending)
    case Violates => Broken
    case Raises(e) => Propagates(e)
    case Returned(v) => if s.violation || s.pending.Some? || s.ordinal != |records| then Broken else Done(v)
  }

  /** `plan_model_step`. */
  function Plan(leaf: Leaf, records: seq<Record>): Step {
    var (s, end) := Run(leaf, [], records, NEW_PORT);
    Verdict(records, s, end)
  }

  // ---------------------------------------------------------------- direct execution

  /** Run without records: the world answers the `k`-th question at once. */
  function Direct(leaf: Leaf, h: seq<Reply>, world: (nat, Request) -> Answer): (seq<Record>, End)
    decreases leaf.depth - |h|
  {
    match Move(leaf, h)
    case Finish(end) => ([], end)
    case Ask(q) =>
      if !Valid(q) then ([], Violates) else
        var answer := world(|h|, q);
        var (rest, end) := Direct(leaf, h + [Got(answer)], world);
        ([Record(q, answer)] + rest, end)
  }

  /** The leaf's own question sequence: fed with the recorded answers it asks exactly these requests and returns. */
  predicate Follows(leaf: Leaf, h: seq<Reply>, records: seq<Record>, v: nat)
    decreases |records|
  {
    match Move(leaf, h)
    case Finish(end) => records == [] && end == Returned(v)
    case Ask(q) =>
      records != [] && Valid(q) && records[0].request == q
        && Follows(leaf, h + [Got(records[0].answer)], records[1..], v)
  }

  /** The leaf asks `q` when the recorded answers are used up. */
  predicate AsksNext(leaf: Leaf, h: seq<Reply>, records: seq<Record>, q: Request)
    decreases |records|
  {
    match Move(leaf, h)
    case Finish(_) => false
    case Ask(p) =>
      Valid(p) && (if records == [] then p == q
                   else records[0].request == p && AsksNext(leaf, h + [Got(records[0].answer)], records[1..], q))
  }

  // ---------------------------------------------------------------- rejection

  /** After a violation, or past an open question, a run can only end in rejection or in that question. */
  lemma {:induction false} SpoiledStays(leaf: Leaf, h: seq<Reply>, records: seq<Record>, s: Port)
    requires s.violation || s.pending.Some?
    ensures var (t, _) := Run(leaf, h, records, s);
      && t.pending == s.pending && (s.violation ==> t.violation)
    decreases leaf.depth - |h|
  {
    if Move(leaf, h).Ask? {
      var (s', reply) := Invoke(records, s, Move(leaf, h).request);
      SpoiledStays(leaf, h + [reply], records, s');
    }
  }

  lemma {:induction false} RunFollows(leaf: Leaf, h: seq<Reply>, records: seq<Record>, k: nat, v: nat)
    requires k <= |records|
    ensures var (s, end) := Run(leaf, h, records, Port(k, None, false));
      Verdict(records, s, end) == Done(v) <==> Follows(leaf, h, records[k..], v)
    decreases leaf.depth - |h|
  {
    if Move(leaf, h).Ask? {
      var q := Move(leaf, h).request;
      var (s', reply) := Invoke(records, Port(k, None, false), q);
      if s'.violation || s'.pending.Some? {
        SpoiledStays(leaf, h + [reply], records, s');
      } else {
        assert records[k..][1..] == records[k + 1..];
        RunFollows(leaf, h + [reply], records, k + 1, v);
      }
    }
  }

  /** A plan is done exactly on the leaf's own question sequence, whatever the leaf catches or swallows. */
  lemma DoneIffFollows(leaf: Leaf, records: seq<Record>, v: nat)
    ensures Plan(leaf, records) == Done(v) <==> Follows(leaf, [], records, v)
  {
    assert records[0..] == records;
    RunFollows(leaf, [], records, 0, v);
  }

  lemma {:induction false} RunAsks(leaf: Leaf, h: seq<Reply>, records: seq<Record>, k: nat, q: Request)
    requires k <= |records|
    requires var (s, end) := Run(leaf, h, records, Port(k, None, false)); Verdict(records, s, end) == Question(Some(q))
    ensures AsksNext(leaf, h, records[k..], q)
    decreases leaf.depth - |h|
  {
    var p := Move(leaf, h).request;
    var (s', reply) := Invoke(records, Port(k, None, false), p);
    if s'.violation || s'.pending.Some? {
      SpoiledStays(leaf, h + [reply], records, s');
    } else {
      assert records[k..][1..] == records[k + 1..];
      RunAsks(leaf, h + [reply], records, k + 1, q);
    }
  }

  /** A question is only planned when every record was consumed as the leaf's own, and it is the leaf's next one. */
  lemma QuestionIsNext(leaf: Leaf, records: seq<Record>, q: Request)
    requires Plan(leaf, records) == Question(Some(q))
    ensures AsksNext(leaf, [], records, q)
  {
    assert records[0..] == records;
    RunAsks(leaf, [], records, 0, q);
  }

  /** So a record list that the leaf does not ask for is never accepted, nor does it lead to another question. */
  lemma ForeignRecordsRejected(leaf: Leaf, records: seq<Record>)
    requires forall v :: !Follows(leaf, [], records, v)
    requires forall q :: !AsksNext(leaf, [], records, q)
    ensures var p := Plan(leaf, records); p == Broken || p.Propagates? || p == Question(None)
  {
    match Plan(leaf, records)
    case Done(v) => DoneIffFollows(leaf, records, v);
    case Question(Some(q)) => QuestionIsNext(leaf, records, q);
    case _ =>
  }

  // ---------------------------------------------------------------- replay is direct execution

  /** A leaf that lets a suspension pass. */
  ghost predicate Passive(leaf: Leaf) {
    forall h :: Move(leaf, h).Ask? && Answers(h) ==> Move(leaf, h + [Suspended]) == Finish(Suspends)
  }

  predicate Answers(h: seq<Reply>) {
    forall i :: 0 <= i < |h| ==> h[i].Got?
  }

  /** What a plan says of a leaf that ended directly with `end`, when its records are used up. */
  predicate EndsAs(end: End, step: Step) {
    match end
    case Returned(v) => step == Done(v)
    case Suspends => step == Question(None)
    case Violates => step == Broken || step.Propagates?
    case Raises(e) => step == Propagates(e)
  }

  lemma {:induction false} RunDirect(leaf: Leaf, h: seq<Reply>, records: seq<Record>, k: nat,
                                     world: (nat, Request) -> Answer)
    requires Passive(leaf) && Answers(h) && k <= |records|
    requires records[k..] <= Direct(leaf, h, world).0
    ensures var (t, end) := Direct(leaf, h, world);
      var (s, e) := Run(leaf, h, records, Port(k, None, false));
      if |records| - k < |t| then Verdict(records, s, e) == Question(Some(t[|records| - k].request))
      else EndsAs(end, Verdict(records, s, e))
    decreases leaf.depth - |h|
  {
    if Move(leaf, h).Ask? {
      var q := Move(leaf, h).request;
      if !Valid(q) {
        SpoiledStays(leaf, h + [Violated], records, Port(k, None, true));
      } else if k < |records| {
        var answer := world(|h|, q);
        assert records[k] == records[k..][0] == Record(q, answer);
        assert records[k..][1..] == records[k + 1..];
        RunDirect(leaf, h + [Got(answer)], records, k + 1, world);
      }
    }
  }

  /**
   Planning on the first `k` answers of a direct run asks that run's next
   question, or ends as it did.
   */
  lemma ReplayIsDirect(leaf: Leaf, world: (nat, Request) -> Answer, k: nat)
    requires Passive(leaf) && k <= |Direct(leaf, [], world).0|
    ensures var (t, end) := Direct(leaf, [], world);
      if k < |t| then Plan(leaf, t[..k]) == Question(Some(t[k].request)) else EndsAs(end, Plan(leaf, t[..k]))
  {
    var t := Direct(leaf, [], world).0;
    assert t[..k][0..] == t[..k];
    RunDirect(leaf, [], t[..k], 0, world);
  }

  /** What the leaf asks after records that begin its direct run is the next question of that run. */
  lemma {:induction false} NextIsDirect(leaf: Leaf, h: seq<Reply>, records: seq<Record>,
                                        world: (nat, Request) -> Answer, q: Request)
    requires AsksNext(leaf, h, records, q) && records <= Direct(leaf, h, world).0
    ensures var t := Direct(leaf, h, world).0;
      |records| < |t| && t[|records|] == Record(q, world(|h| + |records|, q))
    decreases |records|
  {
    if records != [] {
      var p := Move(leaf, h).request;
      var t := Direct(leaf, h, world).0;
      assert t[0] == records[0] && t[1..] == Direct(leaf, h + [Got(records[0].answer)], world).0;
      NextIsDirect(leaf, h + [Got(records[0].answer)], records[1..], world, q);
    }
  }

  lemma {:induction false} FollowsIsDirect(leaf: Leaf, h: seq<Reply>, records: seq<Record>,
                                           world: (nat, Request) -> Answer, v: nat)
    requires Follows(leaf, h, records, v) && records <= Direct(leaf, h, world).0
    ensures Direct(leaf, h, world) == (records, Returned(v))
    decreases |records|
  {
    if records != [] {
      var t := Direct(leaf, h, world).0;
      assert t[0] == records[0] && t[1..] == Direct(leaf, h + [Got(records[0].answer)], world).0;
      FollowsIsDirect(leaf, h + [Got(records[0].answer)], records[1..], world, v);
      assert records == [records[0]] + records[1..];
    }
  }

  // ---------------------------------------------------------------- the port as an object

  class ModelPort {
    const records: seq<Record>
    var ordinal: nat
    var pending: Option<Request>
    var violation: bool

    function State(): Port
      reads this
    {
      Port(ordinal, pending, violation)
    }

    constructor (records: seq<Record>)
      ensures this.records == records && State() == NEW_PORT
    {
      this.records, ordinal, pending, violation := records, 0, None, false;
    }

    /** `reject`. */
    method Reject() returns (reply: Reply)
      modifies this`violation
      ensures reply == Violated && State() == old(State()).(violation := true)
    {
      violation := true;
      return Violated;
    }

    /** `invoke`. */
    method Call(q: Request) returns (reply: Reply)
      modifies this
      ensures (State(), reply) == Invoke(records, old(State()), q)
    {
      if violation {
        return Violated;
      }
      if !q.owner || pending.Some? || q.tokens <= 0 || !q.json {
        reply := Reject();
        return;
      }
      if ordinal < |records| {
        var record := records[ordinal];
        if record.request != q {
          reply := Reject();
          return;
        }
        ordinal := ordinal + 1;
        return Got(record.answer);
      }
      pending := Some(q);
      return Suspended;
    }
  }

  /** `plan_model_step`. */
  method PlanModelStep(leaf: Leaf, records: seq<Record>) returns (step: Step)
    ensures step == Plan(leaf, records)
  {
    var port := new ModelPort(records);
    var h := [];
    while Move(leaf, h).Ask?
      invariant port.records == records
      invariant Run(leaf, h, records, port.State()) == Run(leaf, [], records, NEW_PORT)
      decreases leaf.depth - |h|
    {
      var reply := port.Call(Move(leaf, h).request);
      h := h + [reply];
    }
    return Verdict(records, port.State(), Move(leaf, h).end);
  }

  datatype Driven = Completed(value: nat) | Exhausted | Failed(step: Step)

  /** The requests of a run, in order. */
  function Requests(t: seq<Record>): seq<Request> {
    seq(|t|, i requires 0 <= i < |t| => t[i].request)
  }

  /**
   The loop of `TaskContext.model_step`: plan, ask, record, at most `limit` times.
   What it asks is a prefix of the direct run, each request once and in order; a
   result is the direct run's; a leaf that lets suspensions pass always gets it.
   */
  method ModelStep(leaf: Leaf, world: (nat, Request) -> Answer, limit: nat)
    returns (outcome: Driven, asked: seq<Request>)
    ensures |asked| <= limit && asked <= Requests(Direct(leaf, [], world).0)
    ensures outcome.Completed?
      ==> Direct(leaf, [], world).1 == Returned(outcome.value) && asked == Requests(Direct(leaf, [], world).0)
    ensures outcome.Exhausted? ==> |asked| == limit < |Direct(leaf, [], world).0|
    ensures Passive(leaf) && Direct(leaf, [], world).1.Returned? ==>
      if |Direct(leaf, [], world).0| <= limit then outcome == Completed(Direct(leaf, [], world).1.value)
      else outcome == Exhausted
  {
    ghost var t := Direct(leaf, [], world).0;
    var records := [];
    asked := [];
    while true
      invariant |asked| == |records| <= limit && records <= t && asked == Requests(t)[..|asked|]
      decreases limit - |records|
    {
      var k := |records|;
      var step := PlanModelStep(leaf, records);
      assert records == t[..k];
      if Passive(leaf) {
        ReplayIsDirect(leaf, world, k);
      }
      match step {
        case Done(v) =>
          DoneIffFollows(leaf, records, v);
          FollowsIsDirect(leaf, [], records, world, v);
          return Completed(v), asked;
        case Question(Some(q)) =>
          QuestionIsNext(leaf, records, q);
          NextIsDirect(leaf, [], records, world, q);
          if k == limit {
            return Exhausted, asked;
          }
          records := records + [Record(q, world(k, q))];
          asked := asked + [q];
        case _ => return Driven.Failed(step), asked;
      }
    }
  }
}
