/**
 One tick of the executor, for everything that may be raised in it: which calls
 it makes to end its attempt, and that they are the calls module System lets it
 make at the place where it stands.
 */
module Executor {
  import opened Ledger
  import opened LedgerRuns
  import opened System

  /** What an awaited call raises. */
  datatype Raised =
    | TimedOut
    | Conflicted
    | OverBudget
    | DriverFailed(finished: bool, notSent: bool, retry: bool)
    | ShutDown
    | OtherError

  /** One turn of the loop that persists a result. */
  datatype Persist = Persist(finish: Option<Raised>, commit: Option<Raised>)

  /** What each awaited call of a tick raises, if anything; a loop that runs out of turns is cancelled. */
  datatype Script = Script(lateBeforePermit: bool, acquire: Option<Raised>, lateAfterPermit: bool,
                           payload: Option<Raised>, mark: Option<Raised>, recheck: Option<Raised>,
                           execute: Option<Raised>, persist: seq<Persist>)

  const LATE := DriverFailed(false, true, true)

  /** A timeout inside the deadline of a tick is a driver failure; how it ended depends on the send mark. */
  function InDeadline(e: Raised, sendMarked: bool): Raised {
    if e.TimedOut? then DriverFailed(false, !sendMarked, !sendMarked) else e
  }

  /** What the driver's outcome proves about the attempt. */
  function CauseOf(sendMarked: bool, execute: Option<Raised>): Cause {
    if !sendMarked then Unsent
    else match execute
      case None => Completed
      case Some(DriverFailed(finished, notSent, _)) =>
        if notSent then Unsent else if finished then Rejected else Uncertain
      case Some(_) => Uncertain
  }

  predicate AllEnd(calls: seq<Command>, cause: Cause, res: Reservation) {
    forall c :: c in calls ==> Ends(cause, c, res)
  }

  /** The result is committed only once the end of its computation is recorded. */
  predicate FinishedFirst(calls: seq<Command>, recorded: bool) {
    forall c :: c in calls && c.DoCommitResult? ==> recorded && calls[0].DoComputeFinished?
  }

  /** A failure of an attempt that was not sent, which asks for another try. */
  predicate FailsUnsent(c: Command, res: Reservation) {
    c.DoFail? && c.res == res && c.notSent && c.retry
  }

  /** The call by which the handler of an exception ends the attempt, if it makes one. */
  predicate Ending(calls: seq<Command>, res: Reservation, e: Raised, sendMarked: bool, delay: nat) {
    match e
    case DriverFailed(finished, notSent, retry) =>
      && |calls| == (if finished then 2 else 1) && (finished ==> calls[0] == DoComputeFinished(res))
      && var last := calls[|calls| - 1];
         if finished || notSent
         then last.DoFail? && last.res == res && last.notSent == notSent && last.retry == retry && last.delay == delay
         else last.DoMarkUnknown? && last.res == res
    case Conflicted => if sendMarked then calls == [] else |calls| == 1 && FailsUnsent(calls[0], res)
    case OverBudget => if sendMarked then calls == [] else |calls| == 1 && FailsUnsent(calls[0], res)
    case _ =>
      && |calls| == 1
      && if sendMarked then calls[0].DoMarkUnknown? && calls[0].res == res else FailsUnsent(calls[0], res)
  }

  /**
   The exception handlers of `tick`, for an exception raised before the result was
   there: each makes the one call that ends the attempt as far as is known, and only
   an executor that lost its attempt after the mark makes none.
   */
  method Handle(res: Reservation, e: Raised, sendMarked: bool, delay: nat) returns (calls: seq<Command>)
    requires !sendMarked && e.DriverFailed? ==> e.notSent
    ensures AllEnd(calls, CauseOf(sendMarked, Some(e)), res)
    ensures forall c :: c in calls ==> !c.DoCommitResult? && (c.DoMarkUnknown? ==> sendMarked)
    ensures Ending(calls, res, e, sendMarked, delay)
  {
    match e {
      case DriverFailed(finished, notSent, retry) =>
        calls := if finished then [DoComputeFinished(res)] else [];
        if finished || notSent {
          calls := calls + [DoFail(res, Code(0), notSent, retry, delay)];
        } else {
          calls := calls + [DoMarkUnknown(res, Code(0))];
        }
      case ShutDown =>
        calls := if sendMarked then [DoMarkUnknown(res, Code(1))] else [DoFail(res, Code(2), true, true, 0)];
      case OverBudget =>
        calls := if sendMarked then [] else [DoFail(res, Code(3), true, true, 0)];
      case Conflicted =>
        calls := if sendMarked then [] else [DoFail(res, Code(4), true, true, 0)];
      case _ =>
        calls := if sendMarked then [DoMarkUnknown(res, Code(5))] else [DoFail(res, Code(6), true, true, 0)];
    }
  }

  // ---------------------------------------------------------------- persisting a result

  /** The end of the computation was recorded in a turn before turn `k`. */
  predicate Recorded(turns: seq<Persist>, k: nat) {
    exists j :: 0 <= j < k && j < |turns| && turns[j].finish.None?
  }

  /** What turn `k` raises: recording the end comes first, and the commit follows once that is done. */
  function RaisedIn(turns: seq<Persist>, k: nat): Option<Raised>
    requires k < |turns|
  {
    if Recorded(turns, k) || turns[k].finish.None? then turns[k].commit else turns[k].finish
  }

  /** The ledger refuses the executor; running out of budget is a refusal too. */
  predicate Fenced(e: Raised) {
    e == Conflicted || e == OverBudget
  }

  /** Turn `k` raises something the loop gets over: it is tried again. */
  predicate TriedAgain(turns: seq<Persist>, k: nat) {
    && k < |turns| && RaisedIn(turns, k).Some?
    && !Fenced(RaisedIn(turns, k).value) && RaisedIn(turns, k).value != ShutDown
  }

  /** The calls end as turn `k` does: with the commit, with nothing more to say, or with the attempt left uncertain. */
  predicate EndsAt(calls: seq<Command>, res: Reservation, turns: seq<Persist>, k: nat, artifact: Blob,
                   usage: Option<nat>) {
    && calls != []
    && var last := calls[|calls| - 1];
       if k < |turns| && RaisedIn(turns, k).None? then last == DoCommitResult(res, artifact, usage)
       else if k < |turns| && Fenced(RaisedIn(turns, k).value) then last.DoComputeFinished? || last.DoCommitResult?
       else last.DoMarkUnknown? && last.res == res
  }

  /**
   The loop that persists a result: the inference is never run again for it.  Every
   turn is tried again but one that commits, that lost the attempt, or that is shut
   down, and a result that can be committed is.
   */
  method PersistResult(res: Reservation, turns: seq<Persist>, artifact: Blob, usage: Option<nat>)
    returns (calls: seq<Command>, terminationRecorded: bool, taken: nat)
    ensures AllEnd(calls, Completed, res) && FinishedFirst(calls, terminationRecorded)
    ensures taken <= |turns| && (forall j :: 0 <= j < taken ==> TriedAgain(turns, j))
    ensures taken < |turns| ==> !TriedAgain(turns, taken)
    ensures EndsAt(calls, res, turns, taken, artifact, usage)
    ensures calls[0] == DoComputeFinished(res) || (turns == [] && |calls| == 1)
  {
    calls, terminationRecorded := [], false;
    taken := 0;
    while taken < |turns|
      invariant taken <= |turns| && AllEnd(calls, Completed, res)
      invariant if taken == 0 then calls == [] else calls != [] && calls[0] == DoComputeFinished(res)
      invariant terminationRecorded <==> Recorded(turns, taken)
      invariant terminationRecorded ==> calls != []
      invariant FinishedFirst(calls, terminationRecorded)
      invariant forall j :: 0 <= j < taken ==> TriedAgain(turns, j)
    {
      var raised: Option<Raised> := None;
      if !terminationRecorded {
        calls := calls + [DoComputeFinished(res)];
        raised := turns[taken].finish;
        terminationRecorded := raised.None?;
      }
      if raised.None? {
        calls := calls + [DoCommitResult(res, artifact, usage)];
        raised := turns[taken].commit;
        if raised.None? {
          return;
        }
      }
      if raised.Some? && Fenced(raised.value) {
        return;
      }
      if raised == Some(ShutDown) {
        calls := calls + [DoMarkUnknown(res, Code(1))];
        return;
      }
      taken := taken + 1;
    }
    calls := calls + [DoMarkUnknown(res, Code(1))];
  }

  // ---------------------------------------------------------------- one tick

  /** The executor gets past the final permit check. */
  predicate GetsToSend(s: Script) {
    && !s.lateBeforePermit && s.acquire.None? && !s.lateAfterPermit && s.payload.None? && s.mark.None?
    && s.recheck.None?
  }

  /**
   `Executor.tick`.  `sendMarked` is set only past the final permit check; before
   it every exception ends the attempt as not sent, after it only evidence of the
   driver does, and a lost answer is reported as unknown.
   */
  method Tick(res: Reservation, s: Script, artifact: Blob, usage: Option<nat>, delay: nat)
    returns (calls: seq<Command>, sendMarked: bool, terminationRecorded: bool, taken: nat)
    requires s.acquire.Some? ==> !s.acquire.value.DriverFailed?
    requires s.payload.Some? ==> !s.payload.value.DriverFailed?
    requires s.mark.Some? ==> !s.mark.value.DriverFailed?
    requires s.recheck.Some? ==> !s.recheck.value.DriverFailed?
    ensures AllEnd(calls, CauseOf(sendMarked, s.execute), res)
    ensures sendMarked <==> GetsToSend(s)
    ensures forall c :: c in calls && c.DoMarkUnknown? ==> sendMarked
    ensures forall c :: c in calls && c.DoFail? && c.notSent ==>
      !sendMarked || (s.execute.Some? && s.execute.value.DriverFailed? && s.execute.value.notSent)
    ensures FinishedFirst(calls, terminationRecorded)
    // What ends the attempt:
    ensures !GetsToSend(s) ==> |calls| == 1 && FailsUnsent(calls[0], res)
    ensures GetsToSend(s) && s.execute.Some? ==>
      Ending(calls, res, if s.execute.value.TimedOut? then DriverFailed(false, false, false) else s.execute.value, true,
             delay)
    ensures GetsToSend(s) && s.execute.None? ==>
      && taken <= |s.persist| && (forall j :: 0 <= j < taken ==> TriedAgain(s.persist, j))
      && (taken < |s.persist| ==> !TriedAgain(s.persist, taken))
      && EndsAt(calls, res, s.persist, taken, artifact, usage)
  {
    sendMarked, terminationRecorded, taken := false, false, 0;
    var raised: Option<Raised> := None;
    if s.lateBeforePermit {
      raised := Some(LATE);
    } else if s.acquire.Some? {
      raised := Some(if s.acquire.value.TimedOut? then LATE else s.acquire.value);
    } else if s.lateAfterPermit {
      raised := Some(LATE);
    } else if s.payload.Some? {
      raised := Some(InDeadline(s.payload.value, sendMarked));
    } else if s.mark.Some? {
      raised := Some(InDeadline(s.mark.value, sendMarked));
    } else if s.recheck.Some? {
      raised := Some(InDeadline(s.recheck.value, sendMarked));
    } else {
      sendMarked := true;
      if s.execute.Some? {
        raised := Some(InDeadline(s.execute.value, sendMarked));
      }
    }
    if raised.Some? {
      calls := Handle(res, raised.value, sendMarked, delay);
    } else {
      calls, terminationRecorded, taken := PersistResult(res, s.persist, artifact, usage);
    }
  }
}
