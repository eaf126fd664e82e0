/** One foreground request under the proxy: its producer, the dispatcher, the scheduler's view of it, and the engine. */
module Proxy {
  // A step is what one of them does between two awaits; detaching, deadlines,
  // cut-offs, epoch changes, failing settlements and lost responses may come at any
  // time.  The one thing left out is the shutdown of the process.

  import opened Ledger
  import opened Permits

  // ---------------------------------------------------------------- what one attempt reports

  datatype EngineKind = LlmEngine | NativeEngine

  /** How a response body ended, and whether the stream carried its end marker before that. */
  datatype Body = Complete(done: bool, valid: bool) | Broken(done: bool)

  /** What happened to the request of one attempt. */
  datatype Wire =
    | CutoffBeforeMark
    | MarkRefused
    | CutoffAfterMark
    | TimeoutBeforeSend
    | ConnectFailed
    | NoResponse
    | Loading                                  // an llm engine answered that it is still loading its model
    | Rejected                                 // a status that proves nothing
    | ClientError(body: Body)                  // an llm engine refused the request itself
    | Accepted(streaming: bool, body: Body)    // an llm engine answers
    | Uncertified                              // a native answer without the termination contract
    | Certified(ok: bool, body: Body)          // a native answer under the contract; `ok` is its revision

  datatype Evidence = NotSentEvidence | CompletedEvidence | LostEvidence

  datatype Outcome = Done | Deferred | TerminalError | NotSent | Lost

  /** The flags `sent` and `terminated` when `_attempt` leaves its body. */
  function Flags(w: Wire): (bool, bool) {
    match w
    case CutoffBeforeMark => (false, false)
    case MarkRefused => (false, false)
    case CutoffAfterMark => (false, false)
    case TimeoutBeforeSend => (false, false)
    case ConnectFailed => (false, false)
    case NoResponse => (true, false)
    case Loading => (false, false)
    case Rejected => (true, false)
    case ClientError(_) => (true, true)
    case Accepted(streaming, body) => (true, if streaming then body.done else body.Complete?)
    case Uncertified => (true, false)
    case Certified(_, _) => (true, true)
  }

  /** The settlement `_attempt` records on its way out. */
  function EvidenceOf(w: Wire): Evidence {
    var (sent, terminated) := Flags(w);
    if terminated then CompletedEvidence else if !sent then NotSentEvidence else LostEvidence
  }

  /** What `_attempt` tells the producer: it returns early, or classifies by its flags. */
  function OutcomeOf(w: Wire): Outcome {
    var (sent, terminated) := Flags(w);
    if w.CutoffBeforeMark? || w.CutoffAfterMark? then Deferred
    else if w.Loading? then NotSent
    else if w.Rejected? then Lost
    else if w.ClientError? && w.body.Complete? then Done
    else if w.Accepted? && w.body.Complete? && terminated && w.body.valid then Done
    else if w.Certified? && w.ok && w.body.Complete? && w.body.valid then Done
    else if terminated then TerminalError else if !sent then NotSent else Lost
  }

  /** The outcome the producer acts on says exactly what was settled. */
  lemma OutcomeIsEvidence(w: Wire)
    ensures OutcomeOf(w) == Done || OutcomeOf(w) == TerminalError <==> EvidenceOf(w) == CompletedEvidence
    ensures OutcomeOf(w) == Deferred || OutcomeOf(w) == NotSent <==> EvidenceOf(w) == NotSentEvidence
    ensures OutcomeOf(w) == Lost <==> EvidenceOf(w) == LostEvidence
  {
  }

  /** The body of a response that ends computation: a stream its marker, any other body its end. */
  predicate BodyEnds(streaming: bool, body: Body) {
    if streaming then body.done else body.Complete?
  }

  /** A response that ends the computation of its request, whatever it says. */
  predicate EndsCompute(w: Wire) {
    match w
    case ClientError(_) => true
    case Accepted(streaming, body) => BodyEnds(streaming, body)
    case Certified(_, _) => true
    case _ => false
  }

  /** Nothing reached the engine, or the engine was not there to compute. */
  predicate NeverSent(w: Wire) {
    w in {CutoffBeforeMark, MarkRefused, CutoffAfterMark, TimeoutBeforeSend, ConnectFailed, Loading}
  }

  /** The engine did not take the request, and will not. */
  predicate TurnsAway(w: Wire) {
    w.ConnectFailed? || w.Loading?
  }

  /** A valid answer that the caller gets. */
  predicate IsAnswer(w: Wire) {
    match w
    case ClientError(body) => body.Complete?
    case Accepted(streaming, body) => body.Complete? && body.valid && (streaming ==> body.done)
    case Certified(ok, body) => ok && body.Complete? && body.valid
    case _ => false
  }

  /** What is settled follows from what happened, event by event; everything else is uncertain. */
  lemma EvidenceByEvent(w: Wire)
    ensures EvidenceOf(w) == NotSentEvidence <==> NeverSent(w)
    ensures EvidenceOf(w) == CompletedEvidence <==> EndsCompute(w)
    ensures EvidenceOf(w) == LostEvidence <==> !NeverSent(w) && !EndsCompute(w)
  {
  }

  /** So does what the producer goes on with. */
  lemma OutcomeByEvent(w: Wire)
    ensures OutcomeOf(w) == Deferred <==> w.CutoffBeforeMark? || w.CutoffAfterMark?
    ensures OutcomeOf(w) == NotSent <==> w.MarkRefused? || w.TimeoutBeforeSend? || w.ConnectFailed? || w.Loading?
    ensures OutcomeOf(w) == Done <==> IsAnswer(w)
    ensures OutcomeOf(w) == TerminalError <==> EndsCompute(w) && !IsAnswer(w)
    ensures OutcomeOf(w) == Lost <==> !NeverSent(w) && !EndsCompute(w)
  {
  }

  // ---------------------------------------------------------------- the request

  /** What became of the request to the engine. */
  datatype Fate = Unposted | Posted | Turned | Computing

  datatype Att = Att(state: PermitState, held: bool, fate: Fate)

  datatype Future = Open | Granted(g: nat) | Void

  datatype Phase =
    | Waiting                 // `_produce_waiting`, before it has a reservation
    | Holding(g: nat)         // it has one, but has not entered `_produce`
    | Head(g: nat)            // the head of the loop of `_produce`
    | Marking(g: nat)         // `_attempt`, before `mark_send`
    | Posting(g: nat)         // after it
    | Answered(g: nat, out: Outcome)
    | Recovering(g: nat)
    | Requeueing(g: nat)      // `_queue_retry`, before it is queued
    | Retrying(g: nat)        // and after it
    | Ended

  /** What the caller is told about computation. */
  datatype Told = Nothing | Answer | ToldNotSent | ToldTerminated | ToldUnknown

  /** Attempts are numbered by generation; `pending` is the previous attempt a queued reservation names. */
  datatype Req = Req(tries: bool, kind: EngineKind, atts: seq<Att>, phase: Phase, pending: Option<Option<nat>>,
                     future: Future, hands: Option<nat>, waiter: bool, settlements: map<nat, Evidence>,
                     detached: bool, told: Told)

  datatype Step =
    | Detach
    | Grant
    | HandOver
    | PutBack(ok: bool)
    | Refuse
    | RetrySettlement(g: nat)
    | EpochEnds(g: nat)
    | IdleProven(g: nat)
    | Computes(g: nat)
    | Take
    | Abandon(ok: bool, deadline: bool)
    | Enter
    | CutOff(ok: bool)
    | Expire(ok: bool)
    | Try
    | MarkSend
    | Post
    | Conclude(w: Wire, ok: bool)
    | Decide(expired: bool)
    | Recovered(success: bool)
    | Requeue
    | TakeRetry(ok: bool)
    | AbandonRetry(ok: bool)

  function Finished(a: Att, e: Evidence): Att {
    if !a.held then a
    else match e
      case NotSentEvidence => a.(state := PFailedNotSent, held := false)
      case CompletedEvidence => a.(state := PFinished, held := false)
      case LostEvidence => a.(state := PUnknown)
  }

  /** `_settle`: what cannot be settled now is kept for the dispatcher to retry. */
  function Settle(r: Req, g: nat, e: Evidence, ok: bool): Req
    requires g < |r.atts|
  {
    if ok then r.(atts := r.atts[g := Finished(r.atts[g], e)], settlements := r.settlements - {g})
    else r.(settlements := r.settlements[g := e])
  }

  /** The producer's exit: it leaves the line, and its future can no longer be granted. */
  function End(r: Req, told: Told): Req {
    r.(phase := Ended, pending := None, waiter := false, future := if r.future.Open? then Void else r.future,
       told := if r.detached then Nothing else told)
  }

  /** `_deferred`: an earlier generation may have reached compute. */
  function DeferredTold(g: nat): Told {
    if g == 0 then ToldNotSent else ToldTerminated
  }

  /** The dispatcher keeps its permit: nobody waits for it, or it belongs to another epoch. */
  function Declined(r: Req): Req {
    if r.pending.Some? && r.future.Open? then r.(future := Void, pending := None, hands := None) else r.(hands := None)
  }

  /** The generation the producer would settle if it gave up waiting now. */
  function Owed(r: Req): Option<nat> {
    if r.phase.Holding? then Some(r.phase.g) else if r.future.Granted? then Some(r.future.g) else None
  }

  /** What may come of an attempt, as far as it has got. */
  predicate CanConclude(r: Req, w: Wire) {
    && (r.phase.Marking? || r.phase.Posting?) && r.phase.g < |r.atts|
    && (r.phase.Marking? ==> w.CutoffBeforeMark? || w.MarkRefused? || w.TimeoutBeforeSend?)
    && (r.phase.Posting? && r.atts[r.phase.g].fate.Unposted?
        ==> w.CutoffAfterMark? || w.ConnectFailed? || w.TimeoutBeforeSend? || w.NoResponse?)
    // A refused connection and an engine still loading its model have not begun to compute.
    && (TurnsAway(w) ==> !r.atts[r.phase.g].fate.Computing?)
    && (r.phase.Posting? && !r.atts[r.phase.g].fate.Unposted?
        ==> !w.CutoffBeforeMark? && !w.MarkRefused? && !w.CutoffAfterMark? && !w.TimeoutBeforeSend?)
  }

  predicate Enabled(r: Req, step: Step) {
    match step
    case Detach => true
    case Grant =>
      && r.hands.None? && r.pending.Some? && r.future.Open? && r.waiter
      && (match r.pending.value
          case None => true
          case Some(g) => g < |r.atts| && Retryable(r.atts[g].state) && g + 1 <= 2)
    case HandOver => r.hands.Some? && r.pending.Some? && r.future.Open?
    case PutBack(_) => r.hands.Some? && r.hands.value < |r.atts|
    case Refuse => r.hands.None? && r.pending.Some? && r.future.Open?
    case RetrySettlement(g) => g in r.settlements && g < |r.atts|
    case EpochEnds(g) => g < |r.atts| && r.atts[g].held
    case IdleProven(g) => g < |r.atts| && r.atts[g].held && r.atts[g].state == PUnknown
    case Computes(g) => g < |r.atts| && r.atts[g].fate.Posted?
    case Take => r.phase.Waiting? && r.future.Granted?
    case Abandon(_, _) => (r.phase.Waiting? || r.phase.Holding?) && (Owed(r).Some? ==> Owed(r).value < |r.atts|)
    case Enter => r.phase.Holding?
    case CutOff(_) => r.phase.Head? && r.phase.g < |r.atts|
    case Expire(_) => r.phase.Head? && r.phase.g < |r.atts|
    case Try => r.phase.Head? && !r.detached
    case MarkSend =>
      r.phase.Marking? && r.phase.g < |r.atts| && r.atts[r.phase.g].state == PReserved && r.atts[r.phase.g].held
    case Post => r.phase.Posting? && r.phase.g < |r.atts| && r.atts[r.phase.g].fate.Unposted?
    case Conclude(w, _) => CanConclude(r, w)
    case Decide(_) => r.phase.Answered?
    case Recovered(success) =>
      r.phase.Recovering? && r.phase.g < |r.atts|
        && (success ==> r.atts[r.phase.g].state == PFailedRecoverable && !r.detached)
    case Requeue => r.phase.Requeueing? && r.atts != [] && Retryable(r.atts[|r.atts| - 1].state)
    case TakeRetry(_) => r.phase.Retrying? && r.future.Granted? && r.future.g < |r.atts|
    case AbandonRetry(_) => (r.phase.Requeueing? || r.phase.Retrying?) && (r.future.Granted? ==> r.future.g < |r.atts|)
  }

  /** Where the loop of `_produce` goes after an attempt. */
  function Decided(r: Req, g: nat, out: Outcome, expired: bool): Req {
    if out == Done then End(r, Answer)
    else if out == Deferred || (out == NotSent && r.tries) then End(r, DeferredTold(g))
    else if out == TerminalError then End(r, ToldTerminated)
    else if r.tries || expired then End(r, ToldUnknown)
    else if out == Lost then
      if r.kind == NativeEngine then End(r, ToldUnknown) else r.(phase := Recovering(g))
    else Again(r, g)
  }

  /** The recovery limit, and the way back into the line. */
  function Again(r: Req, g: nat): Req {
    if g >= 2 then End(r, ToldUnknown) else r.(phase := Requeueing(g), future := Void)
  }

  /** The end of `_attempt`: its evidence is settled, and lost evidence is recorded as such. */
  function Concluded(r: Req, w: Wire, ok: bool): Req
    requires CanConclude(r, w)
  {
    var g := r.phase.g;
    var turned := if TurnsAway(w) && r.atts[g].fate.Posted?
                  then r.(atts := r.atts[g := r.atts[g].(fate := Turned)]) else r;
    Settle(turned, g, EvidenceOf(w), ok || EvidenceOf(w) == LostEvidence).(phase := Answered(g, OutcomeOf(w)))
  }

  function Do(r: Req, step: Step): Req
    requires Enabled(r, step)
  {
    match step
    case Detach => r.(detached := true)
    case Grant => r.(atts := r.atts + [Att(PReserved, true, Unposted)], hands := Some(|r.atts|), waiter := false)
    case HandOver => r.(future := Granted(r.hands.value), pending := None, hands := None)
    case PutBack(ok) => Settle(Declined(r), r.hands.value, NotSentEvidence, ok)
    case Refuse => r.(future := Void, pending := None)
    case RetrySettlement(g) => Settle(r, g, r.settlements[g], true)
    case EpochEnds(g) =>
      r.(atts := r.atts[g := r.atts[g].(state :=
                                          if r.atts[g].state == PReserved then PFailedNotSent else PFailedRecoverable,
                                        held := false)])
    case IdleProven(g) => r.(atts := r.atts[g := r.atts[g].(state := PFailedRecoverable, held := false)])
    case Computes(g) => r.(atts := r.atts[g := r.atts[g].(fate := Computing)])
    case Take => r.(phase := Holding(r.future.g), future := Void)
    case Abandon(ok, deadline) =>
      var told := if deadline && r.tries && r.phase.Holding? then ToldNotSent else Nothing;
      if Owed(r).Some? then End(Settle(r.(future := Void), Owed(r).value, NotSentEvidence, ok), told) else End(r, told)
    case Enter => r.(phase := Head(r.phase.g))
    case CutOff(ok) => End(Settle(r, r.phase.g, NotSentEvidence, ok), if ok then DeferredTold(r.phase.g) else Nothing)
    case Expire(ok) =>
      End(Settle(r, r.phase.g, NotSentEvidence, ok),
          if !ok then Nothing else if r.tries then DeferredTold(r.phase.g) else ToldUnknown)
    case Try => r.(phase := Marking(r.phase.g))
    case MarkSend =>
      r.(phase := Posting(r.phase.g), atts := r.atts[r.phase.g := r.atts[r.phase.g].(state := PSendIntent)])
    case Post => r.(atts := r.atts[r.phase.g := r.atts[r.phase.g].(fate := Posted)])
    case Conclude(w, ok) => Concluded(r, w, ok)
    case Decide(expired) => Decided(r, r.phase.g, r.phase.out, expired)
    case Recovered(success) => if success then Again(r, r.phase.g) else End(r, ToldUnknown)
    case Requeue => r.(phase := Retrying(r.phase.g), pending := Some(Some(r.phase.g)), waiter := true, future := Open)
    case TakeRetry(ok) =>
      if r.detached then End(Settle(r.(future := Void), r.future.g, NotSentEvidence, ok), Nothing)
      else r.(phase := Head(r.future.g), future := Void, waiter := false)
    case AbandonRetry(ok) =>
      if r.future.Granted? then End(Settle(r.(future := Void), r.future.g, NotSentEvidence, ok), ToldUnknown)
      else End(r, ToldUnknown)
  }

  // ---------------------------------------------------------------- the invariant

  predicate AttOk(a: Att) {
    && (a.held <==> Live(a.state))
    && (a.state == PReserved ==> a.fate.Unposted?)
  }

  /** Somebody will still settle the attempt, or has. */
  predicate Owned(r: Req, g: nat) {
    || r.hands == Some(g)
    || r.future == Granted(g)
    || ((r.phase.Holding? || r.phase.Head? || r.phase.Marking? || r.phase.Posting?) && r.phase.g == g)
  }

  /** The attempt gave its slot back, or its settlement is kept, or it is recorded as uncertain. */
  predicate Passed(r: Req, g: nat)
    requires g < |r.atts|
  {
    !r.atts[g].held || g in r.settlements || r.atts[g].state == PUnknown
  }

  /** Each attempt but the last is over in a way that allows another one. */
  predicate AttRow(r: Req, g: nat) {
    && g < |r.atts|
    && AttOk(r.atts[g])
    && (g + 1 < |r.atts| ==> Retryable(r.atts[g].state) && !Owned(r, g))
    && (Passed(r, g) || Owned(r, g))
    && (EarlyOwner(r, g) ==> r.atts[g].fate.Unposted?)
  }

  /** The attempt is in hands that have not sent it. */
  predicate EarlyOwner(r: Req, g: nat) {
    || r.hands == Some(g)
    || r.future == Granted(g)
    || ((r.phase.Holding? || r.phase.Head? || r.phase.Marking?) && r.phase.g == g)
  }

  predicate LastIs(r: Req, g: nat) {
    g + 1 == |r.atts|
  }

  /** The producer works on the last attempt, and nothing is queued for it. */
  predicate Alone(r: Req, g: nat) {
    LastIs(r, g) && r.pending.None? && !r.waiter && r.hands.None? && r.future == Void
  }

  predicate Unsent(a: Att) {
    a.fate.Unposted? || a.fate.Turned?
  }

  predicate PhaseOk(r: Req) {
    match r.phase
    case Waiting => |r.atts| <= 1 && (r.pending.Some? ==> r.pending.value.None?) && (r.waiter ==> r.atts == [])
    case Holding(g) => Alone(r, g) && g == 0 && r.atts[g].fate.Unposted?
    case Head(g) => Alone(r, g) && r.atts[g].fate.Unposted?
    case Marking(g) => Alone(r, g) && r.atts[g].fate.Unposted?
    case Posting(g) => Alone(r, g) && r.atts[g].state != PReserved
    case Answered(g, out) => Alone(r, g) && (out == Deferred || out == NotSent ==> Unsent(r.atts[g]))
    case Recovering(g) => Alone(r, g)
    case Requeueing(g) => Alone(r, g) && g < 2
    case Retrying(g) =>
      && (LastIs(r, g) || (g + 2 == |r.atts| && !r.waiter))
      && g < 2 && (r.pending.Some? ==> r.pending.value == Some(g))
    case Ended => r.pending.None? && !r.waiter && r.future == Void
  }

  /** Who holds the last attempt, and what the caller was told. */
  predicate HandsOk(r: Req) {
    && |r.atts| <= 3
    && (r.hands.Some? ==> LastIs(r, r.hands.value) && !r.future.Granted?)
    && (r.future.Granted? ==> LastIs(r, r.future.g) && r.pending.None?)
    && PhaseOk(r)
    && (r.told.ToldNotSent? ==> |r.atts| == 1 && Unsent(r.atts[0]))
    && (!r.phase.Ended? ==> r.told.Nothing?)
  }

  ghost predicate ReqInv(r: Req) {
    HandsOk(r) && forall g {:trigger AttRow(r, g)} :: 0 <= g < |r.atts| ==> AttRow(r, g)
  }

  // ---------------------------------------------------------------- every step keeps it

  lemma WorldRow(r: Req, t: Req, step: Step, g: nat)
    requires ReqInv(r) && Enabled(r, step) && t == Do(r, step) && g < |t.atts|
    requires step.Detach? || step.EpochEnds? || step.IdleProven? || step.Computes?
    ensures AttRow(t, g)
  {
    assert g < |r.atts| ==> AttRow(r, g);
  }

  lemma WorldHands(r: Req, t: Req, step: Step)
    requires ReqInv(r) && Enabled(r, step) && t == Do(r, step)
    requires step.Detach? || step.EpochEnds? || step.IdleProven? || step.Computes?
    ensures HandsOk(t)
  {
    if !step.Detach? {
      assert AttRow(r, step.g);
    }
  }

  /** What comes from outside the proxy. */
  lemma WorldInv(r: Req, t: Req, step: Step)
    requires ReqInv(r) && Enabled(r, step) && t == Do(r, step)
    requires step.Detach? || step.EpochEnds? || step.IdleProven? || step.Computes?
    ensures ReqInv(t)
  {
    forall g | 0 <= g < |t.atts| ensures AttRow(t, g) {
      WorldRow(r, t, step, g);
    }
    WorldHands(r, t, step);
  }

  /** The dispatcher asks for a permit. */
  lemma QueueInv(r: Req, t: Req, step: Step)
    requires ReqInv(r) && Enabled(r, step) && t == Do(r, step)
    requires step.Grant? || step.Refuse?
    ensures ReqInv(t)
  {
    forall g | 0 <= g < |t.atts| ensures AttRow(t, g) {
      assert g < |r.atts| ==> AttRow(r, g);
    }
  }

  /** The dispatcher hands a permit over. */
  lemma HandOverInv(r: Req, t: Req, step: Step)
    requires ReqInv(r) && Enabled(r, step) && t == Do(r, step)
    requires step.HandOver?
    ensures ReqInv(t)
  {
    forall g | 0 <= g < |t.atts| ensures AttRow(t, g) {
      assert AttRow(r, g);
    }
  }

  /** What a settlement, written or kept for later, makes of the rows. */
  lemma SettleRow(r: Req, g: nat, e: Evidence, ok: bool, h: nat)
    requires g < |r.atts| && h < |r.atts| && AttOk(r.atts[h])
    ensures var t := Settle(r, g, e, ok);
      && |t.atts| == |r.atts| && AttOk(t.atts[h]) && t.atts[h].fate == r.atts[h].fate
      && (h == g ==> Passed(t, h))
      && (h != g ==> t.atts[h] == r.atts[h] && (Passed(r, h) ==> Passed(t, h)))
  {
  }

  lemma PutBackRow(r: Req, ok: bool, h: nat)
    requires ReqInv(r) && r.hands.Some? && h < |r.atts|
    ensures LastIs(r, r.hands.value) && h < |Settle(Declined(r), r.hands.value, NotSentEvidence, ok).atts|
    ensures AttRow(Settle(Declined(r), r.hands.value, NotSentEvidence, ok), h)
  {
    assert AttRow(r, h);
    SettleRow(Declined(r), r.hands.value, NotSentEvidence, ok, h);
  }

  lemma SettleHands(r: Req, g: nat, e: Evidence, ok: bool)
    requires HandsOk(r) && g < |r.atts|
    ensures HandsOk(Settle(r, g, e, ok))
  {
    var t := Settle(r, g, e, ok);
    assert |t.atts| == |r.atts| && t == r.(atts := t.atts, settlements := t.settlements);
    assert forall h :: 0 <= h < |r.atts| ==> t.atts[h].fate == r.atts[h].fate;
  }

  lemma DeclinedHands(r: Req)
    requires HandsOk(r) && r.hands.Some?
    ensures HandsOk(Declined(r))
  {
  }

  /** The dispatcher settles a permit nobody waits for. */
  lemma PutBackInv(r: Req, t: Req, step: Step)
    requires ReqInv(r) && Enabled(r, step) && t == Do(r, step)
    requires step.PutBack?
    ensures ReqInv(t)
  {
    DeclinedHands(r);
    SettleHands(Declined(r), r.hands.value, NotSentEvidence, step.ok);
    forall g | 0 <= g < |t.atts| ensures AttRow(t, g) {
      PutBackRow(r, step.ok, g);
    }
  }

  /** The dispatcher retries a settlement. */
  lemma SettlementInv(r: Req, t: Req, step: Step)
    requires ReqInv(r) && Enabled(r, step) && t == Do(r, step)
    requires step.RetrySettlement?
    ensures ReqInv(t)
  {
    forall g | 0 <= g < |t.atts| ensures AttRow(t, g) {
      assert g < |r.atts| ==> AttRow(r, g);
    }
  }

  /** The producer takes its reservation. */
  lemma TakeInv(r: Req, t: Req, step: Step)
    requires ReqInv(r) && Enabled(r, step) && t == Do(r, step)
    requires step.Take? || step.Enter? || step.Try? || step.Requeue?
    ensures ReqInv(t)
  {
    if r.future.Granted? {
      assert AttRow(r, r.future.g);
    }
    forall g | 0 <= g < |t.atts| ensures AttRow(t, g) {
      assert g < |r.atts| ==> AttRow(r, g);
    }
  }

  /** The producer that leaves owes at most the last attempt, and settles it. */
  lemma LeaveRow(r: Req, g: nat, ok: bool, told: Told, h: nat)
    requires ReqInv(r) && g < |r.atts| && h < |r.atts|
    requires r.future == Granted(g) || ((r.phase.Holding? || r.phase.Head?) && r.phase.g == g)
    ensures LastIs(r, g) && h < |Settle(r.(future := Void), g, NotSentEvidence, ok).atts|
    ensures AttRow(End(Settle(r.(future := Void), g, NotSentEvidence, ok), told), h)
  {
    assert AttRow(r, h) && AttRow(r, g);
    SettleRow(r.(future := Void), g, NotSentEvidence, ok, h);
  }

  /** One that owes nothing just leaves. */
  lemma EndRow(r: Req, told: Told, h: nat)
    requires AttRow(r, h) && (Passed(r, h) || r.hands == Some(h))
    ensures AttRow(End(r, told), h)
  {
  }

  lemma AbandonRow(r: Req, t: Req, step: Step, g: nat)
    requires ReqInv(r) && step.Abandon? && Enabled(r, step) && t == Do(r, step) && g < |t.atts|
    ensures AttRow(t, g)
  {
    var told := if step.deadline && r.tries && r.phase.Holding? then ToldNotSent else Nothing;
    if Owed(r).Some? {
      LeaveRow(r, Owed(r).value, step.ok, told, g);
    } else {
      assert AttRow(r, g);
      EndRow(r, told, g);
    }
  }

  /** The producer gives up waiting. */
  lemma AbandonInv(r: Req, t: Req, step: Step)
    requires ReqInv(r) && Enabled(r, step) && t == Do(r, step)
    requires step.Abandon?
    ensures ReqInv(t)
  {
    forall g | 0 <= g < |t.atts| ensures AttRow(t, g) {
      AbandonRow(r, t, step, g);
    }
  }

  /** The producer gives up before sending. */
  lemma CutOffInv(r: Req, t: Req, step: Step)
    requires ReqInv(r) && Enabled(r, step) && t == Do(r, step)
    requires step.CutOff? || step.Expire?
    ensures ReqInv(t)
  {
    forall g | 0 <= g < |t.atts| ensures AttRow(t, g) {
      assert g < |r.atts| ==> AttRow(r, g);
    }
  }

  lemma TakeRetryRow(r: Req, t: Req, step: Step, g: nat)
    requires ReqInv(r) && Enabled(r, step) && t == Do(r, step) && g < |t.atts|
    requires step.TakeRetry?
    ensures AttRow(t, g)
  {
    assert AttRow(r, g);
  }

  /** The producer takes a replacement. */
  lemma TakeRetryInv(r: Req, t: Req, step: Step)
    requires ReqInv(r) && Enabled(r, step) && t == Do(r, step)
    requires step.TakeRetry?
    ensures ReqInv(t)
  {
    assert AttRow(r, r.future.g);
    forall g | 0 <= g < |t.atts| ensures AttRow(t, g) {
      TakeRetryRow(r, t, step, g);
    }
  }

  lemma AbandonRetryRow(r: Req, t: Req, step: Step, g: nat)
    requires ReqInv(r) && step.AbandonRetry? && Enabled(r, step) && t == Do(r, step) && g < |t.atts|
    ensures AttRow(t, g)
  {
    if r.future.Granted? {
      LeaveRow(r, r.future.g, step.ok, ToldUnknown, g);
    } else {
      assert AttRow(r, g);
      EndRow(r, ToldUnknown, g);
    }
  }

  /** The producer gives up waiting for a replacement. */
  lemma AbandonRetryInv(r: Req, t: Req, step: Step)
    requires ReqInv(r) && Enabled(r, step) && t == Do(r, step)
    requires step.AbandonRetry?
    ensures ReqInv(t)
  {
    forall g | 0 <= g < |t.atts| ensures AttRow(t, g) {
      AbandonRetryRow(r, t, step, g);
    }
  }

  /** The attempt is marked and posted. */
  lemma SendInv(r: Req, t: Req, step: Step)
    requires ReqInv(r) && Enabled(r, step) && t == Do(r, step)
    requires step.MarkSend? || step.Post?
    ensures ReqInv(t)
  {
    forall g | 0 <= g < |t.atts| ensures AttRow(t, g) {
      assert g < |r.atts| ==> AttRow(r, g);
    }
  }

  /** The evidence is settled, and nobody owns the attempt any more. */
  lemma AnsweredRow(r: Req, turned: Req, g: nat, e: Evidence, ok: bool, out: Outcome, h: nat)
    requires ReqInv(r) && (r.phase.Marking? || r.phase.Posting?) && r.phase.g == g && h < |r.atts|
    requires turned == r.(atts := turned.atts) && |turned.atts| == |r.atts|
    requires turned.atts[h].state == r.atts[h].state && turned.atts[h].held == r.atts[h].held
    requires AttOk(turned.atts[h])
    ensures LastIs(r, g) && h < |Settle(turned, g, e, ok).atts|
    ensures AttRow(Settle(turned, g, e, ok).(phase := Answered(g, out)), h)
  {
    assert AttRow(r, h) && AttRow(r, g);
    SettleRow(turned, g, e, ok, h);
  }

  lemma ConcludeRow(r: Req, w: Wire, ok: bool, h: nat)
    requires ReqInv(r) && CanConclude(r, w) && h < |Concluded(r, w, ok).atts|
    ensures AttRow(Concluded(r, w, ok), h)
  {
    var g := r.phase.g;
    var turned := if TurnsAway(w) && r.atts[g].fate.Posted?
                  then r.(atts := r.atts[g := r.atts[g].(fate := Turned)]) else r;
    assert AttRow(r, h);
    AnsweredRow(r, turned, g, EvidenceOf(w), ok || EvidenceOf(w) == LostEvidence, OutcomeOf(w), h);
  }

  lemma AnsweredHands(r: Req, turned: Req, g: nat, e: Evidence, ok: bool, out: Outcome)
    requires HandsOk(r) && (r.phase.Marking? || r.phase.Posting?) && r.phase.g == g
    requires turned == r.(atts := turned.atts) && |turned.atts| == |r.atts|
    requires out == Deferred || out == NotSent ==> g < |r.atts| && Unsent(turned.atts[g])
    ensures g < |r.atts| && HandsOk(Settle(turned, g, e, ok).(phase := Answered(g, out)))
  {
  }

  lemma ConcludeHands(r: Req, w: Wire, ok: bool)
    requires HandsOk(r) && CanConclude(r, w)
    ensures HandsOk(Concluded(r, w, ok))
  {
    var g, e := r.phase.g, EvidenceOf(w);
    var turned := if TurnsAway(w) && r.atts[g].fate.Posted?
                  then r.(atts := r.atts[g := r.atts[g].(fate := Turned)]) else r;
    OutcomeIsEvidence(w);
    AnsweredHands(r, turned, g, e, ok || e == LostEvidence, OutcomeOf(w));
  }

  /** The attempt is classified and settled. */
  lemma ConcludeInv(r: Req, t: Req, step: Step)
    requires ReqInv(r) && Enabled(r, step) && t == Do(r, step)
    requires step.Conclude?
    ensures ReqInv(t)
  {
    forall g | 0 <= g < |t.atts| ensures AttRow(t, g) {
      ConcludeRow(r, step.w, step.ok, g);
    }
    ConcludeHands(r, step.w, step.ok);
  }

  /** After an attempt nobody owns one, so only the phase and what is told can change. */
  lemma AfterAttempt(r: Req, t: Req)
    requires ReqInv(r) && (r.phase.Answered? || r.phase.Recovering?) && HandsOk(t)
    requires t == r.(phase := t.phase, told := t.told) && (t.phase.Recovering? || t.phase.Requeueing? || t.phase.Ended?)
    ensures ReqInv(t)
  {
    forall g | 0 <= g < |t.atts| ensures AttRow(t, g) {
      assert AttRow(r, g);
    }
  }

  lemma EndHands(r: Req, told: Told)
    requires HandsOk(r) && (r.phase.Answered? || r.phase.Recovering?)
    requires told.ToldNotSent? ==> |r.atts| == 1 && Unsent(r.atts[0])
    ensures HandsOk(End(r, told)) && End(r, told) == r.(phase := Ended, told := End(r, told).told)
  {
  }

  lemma AgainHands(r: Req, g: nat)
    requires HandsOk(r) && (r.phase.Answered? || r.phase.Recovering?) && r.phase.g == g
    ensures HandsOk(Again(r, g)) && Again(r, g) == r.(phase := Again(r, g).phase, told := Again(r, g).told)
    ensures Again(r, g).phase.Requeueing? || Again(r, g).phase.Ended?
  {
    EndHands(r, ToldUnknown);
  }

  /** Where the producer goes after an attempt. */
  lemma DecidedInv(r: Req, g: nat, out: Outcome, expired: bool)
    requires ReqInv(r) && r.phase == Answered(g, out)
    ensures ReqInv(Decided(r, g, out, expired))
  {
    EndHands(r, Answer);
    EndHands(r, ToldTerminated);
    EndHands(r, ToldUnknown);
    if out == Deferred || out == NotSent {
      EndHands(r, DeferredTold(g));
    }
    AgainHands(r, g);
    AfterAttempt(r, Decided(r, g, out, expired));
  }

  /** The producer goes on or stops. */
  lemma DecideInv(r: Req, t: Req, step: Step)
    requires ReqInv(r) && Enabled(r, step) && t == Do(r, step)
    requires step.Decide? || step.Recovered?
    ensures ReqInv(t)
  {
    if step.Decide? {
      DecidedInv(r, r.phase.g, r.phase.out, step.expired);
    } else {
      AgainHands(r, r.phase.g);
      EndHands(r, ToldUnknown);
      AfterAttempt(r, t);
    }
  }

  lemma StepInv(r: Req, step: Step)
    requires ReqInv(r) && Enabled(r, step)
    ensures ReqInv(Do(r, step))
  {
    if step.Detach? || step.EpochEnds? || step.IdleProven? || step.Computes? {
      WorldInv(r, Do(r, step), step);
    } else if step.Grant? || step.Refuse? {
      QueueInv(r, Do(r, step), step);
    } else if step.HandOver? {
      HandOverInv(r, Do(r, step), step);
    } else if step.PutBack? {
      PutBackInv(r, Do(r, step), step);
    } else if step.RetrySettlement? {
      SettlementInv(r, Do(r, step), step);
    } else if step.Take? || step.Enter? || step.Try? || step.Requeue? {
      TakeInv(r, Do(r, step), step);
    } else if step.Abandon? {
      AbandonInv(r, Do(r, step), step);
    } else if step.CutOff? || step.Expire? {
      CutOffInv(r, Do(r, step), step);
    } else if step.TakeRetry? {
      TakeRetryInv(r, Do(r, step), step);
    } else if step.AbandonRetry? {
      AbandonRetryInv(r, Do(r, step), step);
    } else if step.MarkSend? || step.Post? {
      SendInv(r, Do(r, step), step);
    } else if step.Conclude? {
      ConcludeInv(r, Do(r, step), step);
    } else if step.Decide? || step.Recovered? {
      DecideInv(r, Do(r, step), step);
    }
  }

  // ---------------------------------------------------------------- whole requests

  /** A request waits in line, or was granted its first permit at once. */
  predicate Start(r: Req) {
    && r.phase.Waiting? && r.hands.None? && r.settlements == map[] && r.told.Nothing?
    && (|| (r.atts == [] && r.pending == Some(None) && r.future.Open? && r.waiter && !r.tries)
        || (r.atts == [Att(PReserved, true, Unposted)] && r.pending.None? && r.future == Granted(0) && !r.waiter
            && r.tries))
  }

  ghost predicate IsReqRun(run: seq<Req>, steps: seq<Step>) {
    && |run| == |steps| + 1
    && Start(run[0])
    && forall k: nat {:trigger Taken(run, steps, k)} :: k < |steps| ==> Taken(run, steps, k)
  }

  /** Step `k` leads from state `k` to the next. */
  predicate Taken(run: seq<Req>, steps: seq<Step>, k: nat) {
    k < |steps| && k + 1 < |run| && Enabled(run[k], steps[k]) && run[k + 1] == Do(run[k], steps[k])
  }

  lemma {:induction false} ReqRunInvariant(run: seq<Req>, steps: seq<Step>, k: nat)
    requires IsReqRun(run, steps) && k < |run|
    ensures ReqInv(run[k])
    decreases k
  {
    if k > 0 {
      ReqRunInvariant(run, steps, k - 1);
      assert Taken(run, steps, k - 1);
      StepInv(run[k - 1], steps[k - 1]);
    } else if run[0].atts != [] {
      assert AttRow(run[0], 0);
    }
  }

  function Sends(steps: seq<Step>): nat {
    if steps == [] then 0 else Sends(steps[..|steps| - 1]) + if steps[|steps| - 1].Post? then 1 else 0
  }

  function Sent(atts: seq<Att>): nat {
    if atts == [] then 0 else Sent(atts[..|atts| - 1]) + if atts[|atts| - 1].fate.Unposted? then 0 else 1
  }

  predicate FateMoves(x: Fate, y: Fate, posted: bool) {
    if posted then x.Unposted? && y.Posted? else y == x || (x.Posted? && (y.Turned? || y.Computing?))
  }

  predicate AttMoves(r: Req, t: Req, step: Step, g: nat) {
    g < |r.atts| && g < |t.atts|
      && FateMoves(r.atts[g].fate, t.atts[g].fate, step.Post? && r.phase.Posting? && r.phase.g == g)
  }

  /** What a step does to the fates of attempts, and to what was told. */
  ghost predicate Moves(r: Req, t: Req, step: Step) {
    && |r.atts| <= |t.atts|
    && (forall g {:trigger AttMoves(r, t, step, g)} :: 0 <= g < |r.atts| ==> AttMoves(r, t, step, g))
    && (forall g :: |r.atts| <= g < |t.atts| ==> t.atts[g].fate.Unposted?)
    && (r.phase.Ended? ==> t.phase.Ended? && t.told == r.told)
  }

  lemma DispatcherMoves(r: Req, t: Req, step: Step)
    requires Enabled(r, step) && t == Do(r, step)
    requires step.Grant? || step.HandOver? || step.Refuse?
    ensures Moves(r, t, step)
  {
  }

  /** Settling, now or later, leaves the fates of attempts alone. */
  lemma SettleFates(r: Req, g: nat, e: Evidence, ok: bool)
    requires g < |r.atts|
    ensures |Settle(r, g, e, ok).atts| == |r.atts|
    ensures forall h :: 0 <= h < |r.atts| ==> Settle(r, g, e, ok).atts[h].fate == r.atts[h].fate
  {
  }

  /** A step that changes no fate, and tells nothing more to a request that has ended. */
  lemma SameFates(r: Req, t: Req, step: Step)
    requires |t.atts| == |r.atts| && !step.Post?
    requires forall h :: 0 <= h < |r.atts| ==> t.atts[h].fate == r.atts[h].fate
    requires r.phase.Ended? ==> t.phase.Ended? && t.told == r.told
    ensures Moves(r, t, step)
  {
    forall g | 0 <= g < |r.atts| ensures AttMoves(r, t, step, g) {
    }
  }

  lemma SettlementMoves(r: Req, t: Req, step: Step)
    requires Enabled(r, step) && t == Do(r, step)
    requires step.PutBack? || step.RetrySettlement?
    ensures Moves(r, t, step)
  {
    if step.PutBack? {
      SettleFates(Declined(r), r.hands.value, NotSentEvidence, step.ok);
    } else {
      SettleFates(r, step.g, r.settlements[step.g], true);
    }
    SameFates(r, t, step);
  }

  lemma WorldMoves(r: Req, t: Req, step: Step)
    requires Enabled(r, step) && t == Do(r, step)
    requires step.Detach? || step.EpochEnds? || step.IdleProven? || step.Computes? || step.MarkSend? || step.Post?
      || step.Try?
    ensures Moves(r, t, step)
  {
  }

  lemma WaitMoves(r: Req, t: Req, step: Step)
    requires Enabled(r, step) && t == Do(r, step)
    requires step.Take? || step.Enter? || step.Requeue?
    ensures Moves(r, t, step)
  {
  }

  lemma LeaveMoves(r: Req, t: Req, step: Step)
    requires Enabled(r, step) && t == Do(r, step)
    requires step.Abandon? || step.TakeRetry? || step.AbandonRetry?
    ensures Moves(r, t, step)
  {
  }

  lemma EndMoves(r: Req, t: Req, step: Step)
    requires Enabled(r, step) && t == Do(r, step)
    requires step.CutOff? || step.Expire? || step.Decide? || step.Recovered?
    ensures Moves(r, t, step)
  {
  }

  lemma ConcludedFates(r: Req, w: Wire, ok: bool, g: nat)
    requires CanConclude(r, w) && g < |r.atts|
    ensures |Concluded(r, w, ok).atts| == |r.atts|
    ensures FateMoves(r.atts[g].fate, Concluded(r, w, ok).atts[g].fate, false)
  {
  }

  lemma ConcludeMoves(r: Req, t: Req, step: Step)
    requires Enabled(r, step) && t == Do(r, step) && step.Conclude?
    ensures Moves(r, t, step)
  {
    ConcludedFates(r, step.w, step.ok, r.phase.g);
    forall g | 0 <= g < |r.atts| ensures AttMoves(r, t, step, g) {
      ConcludedFates(r, step.w, step.ok, g);
    }
  }

  lemma StepMoves(r: Req, step: Step)
    requires Enabled(r, step)
    ensures Moves(r, Do(r, step), step)
  {
    if step.Grant? || step.HandOver? || step.Refuse? {
      DispatcherMoves(r, Do(r, step), step);
    } else if step.PutBack? || step.RetrySettlement? {
      SettlementMoves(r, Do(r, step), step);
    } else if step.Take? || step.Enter? || step.Requeue? {
      WaitMoves(r, Do(r, step), step);
    } else if step.Abandon? || step.TakeRetry? || step.AbandonRetry? {
      LeaveMoves(r, Do(r, step), step);
    } else if step.CutOff? || step.Expire? || step.Decide? || step.Recovered? {
      EndMoves(r, Do(r, step), step);
    } else if step.Conclude? {
      ConcludeMoves(r, Do(r, step), step);
    } else {
      WorldMoves(r, Do(r, step), step);
    }
  }

  /** A step adds to the attempts that were sent exactly when it sends. */
  lemma {:induction false} SentMoves(x: seq<Att>, y: seq<Att>, p: nat, posts: bool)
    requires |x| <= |y| && (posts ==> p < |x|)
    requires forall g :: 0 <= g < |x| ==> FateMoves(x[g].fate, y[g].fate, posts && g == p)
    requires forall g :: |x| <= g < |y| ==> y[g].fate.Unposted?
    ensures Sent(y) == Sent(x) + if posts then 1 else 0
    decreases |y|
  {
    if |x| < |y| {
      SentMoves(x, y[..|y| - 1], p, posts);
    } else if y != [] {
      var last := |x| - 1;
      SentMoves(x[..last], y[..last], p, posts && p != last);
    }
  }

  /** Every send of a run left its mark on an attempt of its own. */
  lemma {:induction false} SendsAreAttempts(run: seq<Req>, steps: seq<Step>, k: nat)
    requires IsReqRun(run, steps) && k < |run|
    ensures Sends(steps[..k]) == Sent(run[k].atts)
    decreases k
  {
    if k > 0 {
      SendsAreAttempts(run, steps, k - 1);
      assert steps[..k][..k - 1] == steps[..k - 1];
      StepTaken(run, steps, k - 1);
      SentStep(run[k - 1], run[k], steps[k - 1]);
    }
  }

  lemma SentStep(r: Req, t: Req, step: Step)
    requires Moves(r, t, step) && (step.Post? ==> r.phase.Posting? && r.phase.g < |r.atts|)
    ensures Sent(t.atts) == Sent(r.atts) + if step.Post? then 1 else 0
  {
    var p := if step.Post? then r.phase.g else 0;
    forall g | 0 <= g < |r.atts| ensures FateMoves(r.atts[g].fate, t.atts[g].fate, step.Post? && g == p) {
      assert AttMoves(r, t, step, g);
    }
    SentMoves(r.atts, t.atts, p, step.Post?);
  }

  /** Step `k` of a run moves as it should. */
  lemma StepTaken(run: seq<Req>, steps: seq<Step>, k: nat)
    requires IsReqRun(run, steps) && k < |steps|
    ensures Moves(run[k], run[k + 1], steps[k])
    ensures steps[k].Post? ==> run[k].phase.Posting? && run[k].phase.g < |run[k].atts|
  {
    assert Taken(run, steps, k);
    StepMoves(run[k], steps[k]);
  }

  lemma {:induction false} SentBounded(atts: seq<Att>)
    ensures Sent(atts) <= |atts|
  {
    if atts != [] {
      SentBounded(atts[..|atts| - 1]);
    }
  }

  /**
   A request is sent at most three times, and sent again only when the attempts before it
   failed unsent or recoverably.
   */
  lemma ThreeSends(run: seq<Req>, steps: seq<Step>, k: nat)
    requires IsReqRun(run, steps) && k < |run|
    ensures Sends(steps[..k]) <= 3
    ensures k < |steps| && steps[k].Post? ==> run[k].phase.Posting?
    ensures k < |steps| && steps[k].Post? ==>
      forall g :: 0 <= g < |run[k].atts| && g != run[k].phase.g
          ==> g < run[k].phase.g && Retryable(run[k].atts[g].state)
  {
    ReqRunInvariant(run, steps, k);
    SendsAreAttempts(run, steps, k);
    SentBounded(run[k].atts);
    if k < |steps| && steps[k].Post? {
      assert Taken(run, steps, k);
      forall g | 0 <= g < |run[k].atts| && g != run[k].phase.g
        ensures g < run[k].phase.g && Retryable(run[k].atts[g].state)
      {
        assert AttRow(run[k], g);
      }
    }
  }

  /** A request never holds two permits. */
  lemma OnePermit(run: seq<Req>, steps: seq<Step>, k: nat, g: nat, h: nat)
    requires IsReqRun(run, steps) && k < |run| && g < |run[k].atts| && h < |run[k].atts|
    requires run[k].atts[g].held && run[k].atts[h].held
    ensures g == h
  {
    ReqRunInvariant(run, steps, k);
    assert AttRow(run[k], g) && AttRow(run[k], h);
  }

  /**
   However a request ends, no permit leaks: each was given back, is recorded as
   uncertain, is kept for a settlement to be retried, or is still in the hands of
   the dispatcher, which can only settle it.
   */
  lemma NoPermitLeak(run: seq<Req>, steps: seq<Step>, k: nat, g: nat)
    requires IsReqRun(run, steps) && k < |run| && run[k].phase.Ended? && g < |run[k].atts|
    ensures Passed(run[k], g) || run[k].hands == Some(g)
    ensures !Enabled(run[k], HandOver) && !Enabled(run[k], Step.Grant)
    ensures run[k].hands == Some(g)
      ==> Enabled(run[k], PutBack(true)) && Passed(Do(run[k], PutBack(true)), g)
          && Passed(Do(run[k], PutBack(false)), g)
    ensures g in run[k].settlements ==> Enabled(run[k], RetrySettlement(g))
    ensures g in run[k].settlements && run[k].settlements[g] != LostEvidence ==>
      !Do(run[k], RetrySettlement(g)).atts[g].held
  {
    ReqRunInvariant(run, steps, k);
    assert AttRow(run[k], g);
  }

  /** The caller is told `not_sent` only if no generation of its request ever reaches compute. */
  lemma HonestRefusal(run: seq<Req>, steps: seq<Step>, j: nat, k: nat, g: nat)
    requires IsReqRun(run, steps) && j < |run| && k < |run| && run[j].told.ToldNotSent? && g < |run[k].atts|
    ensures !run[k].atts[g].fate.Computing?
  {
    ReqRunInvariant(run, steps, j);
    ReqRunInvariant(run, steps, k);
    if j <= k {
      ToldStays(run, steps, j, k);
    } else if run[k].atts[g].fate.Computing? {
      ComputingStays(run, steps, k, j, g);
    }
  }

  lemma {:induction false} ToldStays(run: seq<Req>, steps: seq<Step>, j: nat, k: nat)
    requires IsReqRun(run, steps) && j <= k < |run| && run[j].phase.Ended?
    ensures run[k].phase.Ended? && run[k].told == run[j].told
    decreases k
  {
    if j < k {
      ToldStays(run, steps, j, k - 1);
      StepTaken(run, steps, k - 1);
    }
  }

  lemma {:induction false} ComputingStays(run: seq<Req>, steps: seq<Step>, k: nat, j: nat, g: nat)
    requires IsReqRun(run, steps) && k <= j < |run| && g < |run[k].atts| && run[k].atts[g].fate.Computing?
    ensures g < |run[j].atts| && run[j].atts[g].fate.Computing?
    decreases j
  {
    if k < j {
      ComputingStays(run, steps, k, j - 1, g);
      StepTaken(run, steps, j - 1);
      assert AttMoves(run[j - 1], run[j], steps[j - 1], g);
    }
  }

  // ---------------------------------------------------------------- what the caller is told is true

  /** An attempt is answered by its conclusion, and stays so until the producer decides. */
  lemma StillAnswered(r: Req, step: Step)
    requires Enabled(r, step) && Do(r, step).phase.Answered? && !step.Conclude?
    ensures r.phase == Do(r, step).phase
  {
  }

  lemma ConcludedPhase(r: Req, w: Wire, ok: bool)
    requires CanConclude(r, w)
    ensures Concluded(r, w, ok).phase == Answered(r.phase.g, OutcomeOf(w))
  {
  }

  lemma AnsweredStep(r: Req, step: Step)
    requires Enabled(r, step) && Do(r, step).phase.Answered?
    ensures r.phase == Do(r, step).phase
      || (step.Conclude? && (r.phase.Marking? || r.phase.Posting?) && r.phase.g == Do(r, step).phase.g
          && OutcomeOf(step.w) == Do(r, step).phase.out)
  {
    if step.Conclude? {
      ConcludedPhase(r, step.w, step.ok);
    } else {
      StillAnswered(r, step);
    }
  }

  lemma {:induction false} LastConclusion(run: seq<Req>, steps: seq<Step>, k: nat) returns (j: nat)
    requires IsReqRun(run, steps) && k < |run| && run[k].phase.Answered?
    ensures j < k && steps[j].Conclude? && (run[j].phase.Marking? || run[j].phase.Posting?)
    ensures run[j].phase.g == run[k].phase.g && OutcomeOf(steps[j].w) == run[k].phase.out
    decreases k
  {
    assert k > 0;
    assert Taken(run, steps, k - 1);
    AnsweredStep(run[k - 1], steps[k - 1]);
    if run[k - 1].phase == run[k].phase {
      j := LastConclusion(run, steps, k - 1);
    } else {
      j := k - 1;
    }
  }

  lemma DecideTells(r: Req, g: nat, out: Outcome, expired: bool)
    requires r.told.Nothing?
    ensures Decided(r, g, out, expired).told.Answer? ==> out == Done
    ensures Decided(r, g, out, expired).told.ToldTerminated? ==>
      out == TerminalError || (g > 0 && (out == Deferred || out == NotSent))
  {
  }

  lemma ConcludeTells(r: Req, w: Wire, ok: bool)
    requires CanConclude(r, w)
    ensures Concluded(r, w, ok).told == r.told
  {
  }

  /** The steps at which a caller is told something, with what they go by. */
  lemma TellsStep(r: Req, step: Step)
    requires Enabled(r, step) && r.told.Nothing? && !Do(r, step).told.Nothing?
    ensures Do(r, step).told.Answer? ==> r.phase.Answered? && r.phase.out == Done
    ensures Do(r, step).told.ToldTerminated? ==>
      || (r.phase.Answered? && (r.phase.out == TerminalError
                                || (r.phase.g > 0 && (r.phase.out == Deferred || r.phase.out == NotSent))))
      || (r.phase.Head? && r.phase.g > 0 && (step.CutOff? || step.Expire?))
  {
    if step.Decide? {
      DecideTells(r, r.phase.g, r.phase.out, step.expired);
    } else if step.Conclude? {
      ConcludeTells(r, step.w, step.ok);
    }
  }

  /** The caller gets an answer only if a complete and valid one came from the engine. */
  lemma HonestAnswer(run: seq<Req>, steps: seq<Step>, k: nat) returns (j: nat)
    requires IsReqRun(run, steps) && k + 1 < |run| && run[k].told.Nothing? && run[k + 1].told.Answer?
    ensures j < k && steps[j].Conclude? && IsAnswer(steps[j].w)
  {
    assert Taken(run, steps, k);
    TellsStep(run[k], steps[k]);
    j := LastConclusion(run, steps, k);
    OutcomeByEvent(steps[j].w);
  }

  /** A response that ended the computation of generation `g` came before step `k`. */
  ghost predicate WasEnded(run: seq<Req>, steps: seq<Step>, k: nat, g: nat) {
    exists j: nat ::
      j < k && j < |run| && j < |steps| && steps[j].Conclude? && EndsCompute(steps[j].w)
      && (run[j].phase.Marking? || run[j].phase.Posting?) && run[j].phase.g == g
  }

  /**
   The caller is told that computation is over only when it is: every earlier
   attempt failed unsent or recoverably, and the last one either never was sent or
   ended with a response.
   */
  lemma HonestTermination(run: seq<Req>, steps: seq<Step>, k: nat, g: nat)
    requires IsReqRun(run, steps) && k + 1 < |run| && run[k].told.Nothing? && run[k + 1].told.ToldTerminated?
    requires g < |run[k].atts|
    ensures if g + 1 < |run[k].atts| then Retryable(run[k].atts[g].state)
            else Unsent(run[k].atts[g]) || WasEnded(run, steps, k, g)
  {
    var r := run[k];
    ReqRunInvariant(run, steps, k);
    assert Taken(run, steps, k) && AttRow(r, g);
    TellsStep(r, steps[k]);
    if r.phase.Answered? && r.phase.out == TerminalError {
      var j := LastConclusion(run, steps, k);
      OutcomeByEvent(steps[j].w);
      assert g + 1 == |r.atts| ==> WasEnded(run, steps, k, g);
    }
  }

  /** After an attempt the producer tries again, waits for recovery, or ends, by exactly these conditions. */
  lemma DecidedByOutcome(r: Req, g: nat, out: Outcome, expired: bool)
    ensures var t := Decided(r, g, out, expired);
      && (t.phase == Requeueing(g) <==> out == NotSent && !r.tries && !expired && g < 2)
      && (t.phase == Recovering(g) <==> out == Lost && r.kind == LlmEngine && !r.tries && !expired)
      && (t.phase.Requeueing? || t.phase.Recovering? || t.phase.Ended?)
      && (t.phase.Ended? && !r.detached ==>
            t.told == match out
                      case Done => Answer
                      case Deferred => if g == 0 then ToldNotSent else ToldTerminated
                      case TerminalError => ToldTerminated
                      case NotSent => if !r.tries then ToldUnknown else if g == 0 then ToldNotSent else ToldTerminated
                      case Lost => ToldUnknown)
  {
  }

  /** A proven recovery is used: the next generation is queued unless there were three. */
  lemma RecoveredGoesOn(r: Req, success: bool)
    requires Enabled(r, Recovered(success))
    ensures var t := Do(r, Recovered(success));
      t.phase == (if success && r.phase.g < 2 then Requeueing(r.phase.g) else Ended)
  {
  }

  // ---------------------------------------------------------------- a run in which the second attempt answers

  function Q(atts: seq<Att>, phase: Phase, pending: Option<Option<nat>>, future: Future, hands: Option<nat>,
             waiter: bool,
             told: Told): Req {
    Req(false, LlmEngine, atts, phase, pending, future, hands, waiter, map[], false, told)
  }

  const NEW := Att(PReserved, true, Unposted)
  const MARKED := Att(PSendIntent, true, Unposted)
  const UNSENT := Att(PFailedNotSent, false, Unposted)
  const POSTED := Att(PSendIntent, true, Posted)
  const BUSY := Att(PSendIntent, true, Computing)
  const FINISHED := Att(PFinished, false, Computing)
  const ANSWER := Accepted(false, Complete(true, true))

  predicate Leads(r: Req, step: Step, t: Req) {
    Enabled(r, step) && Do(r, step) == t
  }

  lemma NothingKept(g: nat)
    ensures var m: map<nat, Evidence> := map[]; m - {g} == m
  {
  }

  lemma FirstGranted()
    ensures Leads(Q([], Waiting, Some(None), Open, None, true, Nothing), Step.Grant,
                  Q([NEW], Waiting, Some(None), Open, Some(0), false, Nothing))
    ensures Leads(Q([NEW], Waiting, Some(None), Open, Some(0), false, Nothing), HandOver,
                  Q([NEW], Waiting, None, Granted(0), None, false, Nothing))
    ensures Leads(Q([NEW], Waiting, None, Granted(0), None, false, Nothing), Step.Take,
                  Q([NEW], Holding(0), None, Void, None, false, Nothing))
    ensures Leads(Q([NEW], Holding(0), None, Void, None, false, Nothing), Enter,
                  Q([NEW], Head(0), None, Void, None, false, Nothing))
  {
    assert [] + [NEW] == [NEW];
  }

  lemma FirstRefused()
    ensures Leads(Q([NEW], Head(0), None, Void, None, false, Nothing), Try,
                  Q([NEW], Marking(0), None, Void, None, false, Nothing))
    ensures Leads(Q([NEW], Marking(0), None, Void, None, false, Nothing), Step.MarkSend,
                  Q([MARKED], Posting(0), None, Void, None, false, Nothing))
    ensures Leads(Q([UNSENT], Answered(0, NotSent), None, Void, None, false, Nothing), Decide(false),
                  Q([UNSENT], Requeueing(0), None, Void, None, false, Nothing))
  {
    assert [NEW][0 := MARKED] == [MARKED];
  }

  lemma FirstConcluded()
    ensures Leads(Q([MARKED], Posting(0), None, Void, None, false, Nothing), Conclude(ConnectFailed, true),
                  Q([UNSENT], Answered(0, NotSent), None, Void, None, false, Nothing))
  {
    assert [MARKED][0 := UNSENT] == [UNSENT];
    NothingKept(0);
  }

  lemma SecondGranted()
    ensures Leads(Q([UNSENT], Requeueing(0), None, Void, None, false, Nothing), Requeue,
                  Q([UNSENT], Retrying(0), Some(Some(0)), Open, None, true, Nothing))
    ensures Leads(Q([UNSENT], Retrying(0), Some(Some(0)), Open, None, true, Nothing), Step.Grant,
                  Q([UNSENT, NEW], Retrying(0), Some(Some(0)), Open, Some(1), false, Nothing))
    ensures Leads(Q([UNSENT, NEW], Retrying(0), Some(Some(0)), Open, Some(1), false, Nothing), HandOver,
                  Q([UNSENT, NEW], Retrying(0), None, Granted(1), None, false, Nothing))
    ensures Leads(Q([UNSENT, NEW], Retrying(0), None, Granted(1), None, false, Nothing), TakeRetry(true),
                  Q([UNSENT, NEW], Head(1), None, Void, None, false, Nothing))
  {
    assert [UNSENT] + [NEW] == [UNSENT, NEW];
  }

  lemma SecondSent()
    ensures Leads(Q([UNSENT, NEW], Head(1), None, Void, None, false, Nothing), Try,
                  Q([UNSENT, NEW], Marking(1), None, Void, None, false, Nothing))
    ensures Leads(Q([UNSENT, NEW], Marking(1), None, Void, None, false, Nothing), Step.MarkSend,
                  Q([UNSENT, MARKED], Posting(1), None, Void, None, false, Nothing))
    ensures Leads(Q([UNSENT, MARKED], Posting(1), None, Void, None, false, Nothing), Post,
                  Q([UNSENT, POSTED], Posting(1), None, Void, None, false, Nothing))
    ensures Leads(Q([UNSENT, POSTED], Posting(1), None, Void, None, false, Nothing), Computes(1),
                  Q([UNSENT, BUSY], Posting(1), None, Void, None, false, Nothing))
  {
    assert [UNSENT, NEW][1 := MARKED] == [UNSENT, MARKED] && [UNSENT, MARKED][1 := POSTED] == [UNSENT, POSTED];
    assert [UNSENT, POSTED][1 := BUSY] == [UNSENT, BUSY];
  }

  lemma SecondAnswers()
    ensures Leads(Q([UNSENT, BUSY], Posting(1), None, Void, None, false, Nothing), Conclude(ANSWER, true),
                  Q([UNSENT, FINISHED], Answered(1, Done), None, Void, None, false, Nothing))
    ensures Leads(Q([UNSENT, FINISHED], Answered(1, Done), None, Void, None, false, Nothing), Decide(false),
                  Q([UNSENT, FINISHED], Ended, None, Void, None, false, Answer))
  {
    assert [UNSENT, BUSY][1 := FINISHED] == [UNSENT, FINISHED];
    NothingKept(1);
  }

  lemma Extend(run: seq<Req>, steps: seq<Step>, step: Step, t: Req) returns (longer: seq<Req>, more: seq<Step>)
    requires IsReqRun(run, steps) && Leads(run[|run| - 1], step, t)
    ensures IsReqRun(longer, more) && longer[|longer| - 1] == t && more == steps + [step]
  {
    longer, more := run + [t], steps + [step];
    forall k: nat | k < |more| ensures Taken(longer, more, k) {
      assert k < |steps| ==> Taken(run, steps, k);
    }
  }

  lemma ExtendFour(run: seq<Req>, steps: seq<Step>, a: Step, s: Req, b: Step, t: Req, c: Step, u: Req, d: Step, v: Req)
    returns (longer: seq<Req>, more: seq<Step>)
    requires IsReqRun(run, steps) && Leads(run[|run| - 1], a, s) && Leads(s, b, t) && Leads(t, c, u) && Leads(u, d, v)
    ensures IsReqRun(longer, more) && longer[|longer| - 1] == v && more == steps + [a, b, c, d]
  {
    longer, more := Extend(run, steps, a, s);
    longer, more := Extend(longer, more, b, t);
    longer, more := Extend(longer, more, c, u);
    longer, more := Extend(longer, more, d, v);
  }

  /** The theorems are about something: a refused first attempt, a second one that computes, and its answer. */
  lemma SomeRequestIsAnswered() returns (run: seq<Req>, steps: seq<Step>)
    ensures IsReqRun(run, steps) && run[|steps|].told.Answer? && |run[|steps|].atts| == 2
    ensures Retryable(run[|steps|].atts[0].state) && run[|steps|].atts[1].fate.Computing?
  {
    FirstGranted();
    FirstRefused();
    FirstConcluded();
    SecondGranted();
    SecondSent();
    SecondAnswers();
    run, steps := [Q([], Waiting, Some(None), Open, None, true, Nothing)], [];
    run, steps := ExtendFour(run, steps,
      Step.Grant, Q([NEW], Waiting, Some(None), Open, Some(0), false, Nothing),
      HandOver, Q([NEW], Waiting, None, Granted(0), None, false, Nothing),
      Step.Take, Q([NEW], Holding(0), None, Void, None, false, Nothing),
      Enter, Q([NEW], Head(0), None, Void, None, false, Nothing));
    run, steps := ExtendFour(run, steps,
      Try, Q([NEW], Marking(0), None, Void, None, false, Nothing),
      Step.MarkSend, Q([MARKED], Posting(0), None, Void, None, false, Nothing),
      Conclude(ConnectFailed, true), Q([UNSENT], Answered(0, NotSent), None, Void, None, false, Nothing),
      Decide(false), Q([UNSENT], Requeueing(0), None, Void, None, false, Nothing));
    run, steps := ExtendFour(run, steps,
      Requeue, Q([UNSENT], Retrying(0), Some(Some(0)), Open, None, true, Nothing),
      Step.Grant, Q([UNSENT, NEW], Retrying(0), Some(Some(0)), Open, Some(1), false, Nothing),
      HandOver, Q([UNSENT, NEW], Retrying(0), None, Granted(1), None, false, Nothing),
      TakeRetry(true), Q([UNSENT, NEW], Head(1), None, Void, None, false, Nothing));
    run, steps := ExtendFour(run, steps,
      Try, Q([UNSENT, NEW], Marking(1), None, Void, None, false, Nothing),
      Step.MarkSend, Q([UNSENT, MARKED], Posting(1), None, Void, None, false, Nothing),
      Post, Q([UNSENT, POSTED], Posting(1), None, Void, None, false, Nothing),
      Computes(1), Q([UNSENT, BUSY], Posting(1), None, Void, None, false, Nothing));
    run, steps := Extend(run, steps, Conclude(ANSWER, true),
                         Q([UNSENT, FINISHED], Answered(1, Done), None, Void, None, false, Nothing));
    run, steps := Extend(run, steps, Decide(false), Q([UNSENT, FINISHED], Ended, None, Void, None, false, Answer));
  }
}
